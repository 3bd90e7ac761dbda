/** `batch.run`: build both layers in staging namespaces, publish them, and clean up when anything fails. */
module Batch {
  import opened Collections
  import opened Schema
  import opened Relational
  import opened Gold
  import opened GoldTotals
  import opened Catalog
  import opened Publish

  datatype BatchError = BronzeTablesDiffer | SilverCountDiffers(table: Table) | GoldInvalid | CatalogDown

  datatype GoldModel = DailyMetrics | VendorRisk | Buyers360 | ProductSales

  const GOLD_MODELS: seq<GoldModel> := [DailyMetrics, VendorRisk, Buyers360, ProductSales]

  function GoldName(g: GoldModel): string {
    match g
    case DailyMetrics => "daily_market_metrics"
    case VendorRisk => "vendor_risk_summary"
    case Buyers360 => "buyer_360"
    case ProductSales => "product_performance"
  }

  /** What one run reads: the manifest, the bronze files, the PostgreSQL row counts, and the Silver rows themselves. */
  datatype Inputs = Inputs(sha: string, manifestRows: Table -> nat, bronze: set<Table>, bronzeRows: Table -> nat,
                           current: Table -> nat, data: Silver)

  function SilverRows(inputs: Inputs, t: Table): nat {
    inputs.current(t) + if IsFact(t) then inputs.bronzeRows(t) else 0
  }

  function GoldRows(s: Silver, g: GoldModel): nat {
    match g
    case DailyMetrics => |Daily(s)|
    case VendorRisk => |VendorSummary(s)|
    case Buyers360 => |Buyer360(s)|
    case ProductSales => |ProductPerformance(s)|
  }

  /** The total of the column the validator adds up. */
  function GoldCounted(s: Silver, g: GoldModel): int {
    match g
    case DailyMetrics => Sum(Daily(s), DAILY_COUNT)
    case VendorRisk => Sum(VendorSummary(s), VENDOR_COUNT_OF)
    case Buyers360 => Sum(Buyer360(s), BUYER_COUNT_OF)
    case ProductSales => Sum(ProductPerformance(s), PRODUCT_UNITS)
  }

  function SilverMeta(run: nat, inputs: Inputs, t: Table): Meta { Meta(run, Some(inputs.sha), SilverRows(inputs, t), 0) }

  function RowsOf(s: Silver): GoldModel -> nat { (g: GoldModel) => GoldRows(s, g) }

  function CountedOf(s: Silver): GoldModel -> int { (g: GoldModel) => GoldCounted(s, g) }

  // ---------------------------------------------------------------- staged tables

  /** The staged tables once the first `k` of `keys` are built. */
  ghost function Staged<K(!new)>(keys: seq<K>, name: K -> string, meta: K -> Meta, k: nat): Tables
    requires k <= |keys|
  {
    if k == 0 then map[] else Staged(keys, name, meta, k - 1)[name(keys[k - 1]) := meta(keys[k - 1])]
  }

  ghost predicate InjectiveOn<K(!new)>(keys: seq<K>, name: K -> string) {
    forall i, j :: 0 <= i < j < |keys| ==> name(keys[i]) != name(keys[j])
  }

  lemma {:induction false} StagedNames<K(!new)>(keys: seq<K>, name: K -> string, meta: K -> Meta, k: nat)
    requires k <= |keys|
    ensures Staged(keys, name, meta, k).Keys == NameSet(Map(keys, name)[..k])
  {
    hide Map;
    if k > 0 {
      StagedNames(keys, name, meta, k - 1);
      var names := Map(keys, name);
      assert names[..k] == names[..k - 1] + [name(keys[k - 1])];
      assert NameSet(names[..k]) == NameSet(names[..k - 1]) + {name(keys[k - 1])};
    }
  }

  lemma {:induction false} StagedIs<K(!new)>(keys: seq<K>, name: K -> string, meta: K -> Meta, k: nat, i: nat)
    requires i < k <= |keys| && InjectiveOn(keys, name)
    ensures var stage := Staged(keys, name, meta, k); name(keys[i]) in stage && stage[name(keys[i])] == meta(keys[i])
  {
    if i < k - 1 { StagedIs(keys, name, meta, k - 1, i); }
  }

  const NAME_OF: Table -> string := (t: Table) => Name(t)
  const GOLD_NAME_OF: GoldModel -> string := (g: GoldModel) => GoldName(g)

  const SILVER_NAMES: seq<string> := Map(TABLES, NAME_OF)
  const GOLD_NAMES: seq<string> := Map(GOLD_MODELS, GOLD_NAME_OF)

  function SilverMetaOf(run: nat, inputs: Inputs): Table -> Meta { (t: Table) => SilverMeta(run, inputs, t) }

  function GoldMetaOf(run: nat, rows: GoldModel -> nat, counted: GoldModel -> int): GoldModel -> Meta {
    (g: GoldModel) => Meta(run, None, rows(g), counted(g))
  }

  ghost function SilverStage(run: nat, inputs: Inputs): Tables {
    Staged(TABLES, NAME_OF, SilverMetaOf(run, inputs), |TABLES|)
  }

  ghost function GoldStage(run: nat, inputs: Inputs): Tables {
    Staged(GOLD_MODELS, GOLD_NAME_OF, GoldMetaOf(run, RowsOf(inputs.data), CountedOf(inputs.data)), |GOLD_MODELS|)
  }

  lemma NamesInjective()
    ensures InjectiveOn(TABLES, NAME_OF) && InjectiveOn(GOLD_MODELS, GOLD_NAME_OF)
  {
    forall i, j | 0 <= i < j < |TABLES| ensures NAME_OF(TABLES[i]) != NAME_OF(TABLES[j]) {
      if Name(TABLES[i]) == Name(TABLES[j]) { NameInjective(TABLES[i], TABLES[j]); }
    }
    forall i, j | 0 <= i < j < |GOLD_MODELS| ensures GOLD_NAME_OF(GOLD_MODELS[i]) != GOLD_NAME_OF(GOLD_MODELS[j]) {
      if GoldName(GOLD_MODELS[i]) == GoldName(GOLD_MODELS[j]) { GoldNameInjective(GOLD_MODELS[i], GOLD_MODELS[j]); }
    }
  }

  lemma GoldNameInjective(g: GoldModel, h: GoldModel)
    requires GoldName(g) == GoldName(h)
    ensures g == h
  {
    assert forall m :: |GoldName(m)| == match m
                                        case DailyMetrics => 20
                                        case VendorRisk => 19
                                        case Buyers360 => 9
                                        case ProductSales => 19;
    assert GoldName(VendorRisk)[0] != GoldName(ProductSales)[0];
  }

  // ---------------------------------------------------------------- building

  /** The bronze files are complete and as long as the manifest says. */
  ghost predicate SilverBuilds(inputs: Inputs) {
    inputs.bronze == (set t | t in TABLES) && forall t :: AsManifested(inputs, t)
  }

  ghost predicate GoldBuilds(inputs: Inputs) { forall g: GoldModel :: RowsOf(inputs.data)(g) > 0 }

  /** Creates one staged table, commits its rows, and counts them again. */
  method StageTable(c: IcebergCatalog, ns: Namespace, name: string, run: nat, sha: Option<string>, rows: nat,
                    counted: int, commit: bool)
    returns (actual: Option<nat>)
    requires ns in c.spaces && name !in c.spaces[ns] && (!commit ==> rows == counted == 0)
    modifies c
    ensures c.lost == old(c.lost) && c.spaces - {ns} == old(c.spaces) - {ns}
    ensures actual.Some? <==> Affords(old(c.healthy), if commit then 2 else 1)
    ensures actual.Some? ==> c.healthy == Spend(old(c.healthy), if commit then 2 else 1)
    ensures actual.Some? ==> actual.value == rows && ns in c.spaces &&
                             c.spaces[ns] == old(c.spaces)[ns][name := Meta(run, sha, rows, counted)]
  {
    var ok := c.Do(CreateTable(ns, name, Meta(run, sha, 0, 0)));
    if !ok { return None; }
    if commit {
      ok := c.Do(Append(ns, name, rows, counted));
      if !ok { return None; }
    }
    actual := Some(c.spaces[ns][name].rows);
  }

  /** A fact table's bronze files hold as many rows as the manifest says. */
  predicate AsManifested(inputs: Inputs, t: Table) { IsFact(t) ==> inputs.bronzeRows(t) == inputs.manifestRows(t) }

  /** Facts always commit their history files, dimensions only a snapshot with rows. */
  predicate Commits(inputs: Inputs, t: Table) { IsFact(t) || inputs.current(t) > 0 }

  /** The calls that stage the first `k` Silver tables. */
  function SilverCost(inputs: Inputs, tables: seq<Table>, k: nat): nat
    requires k <= |tables|
  {
    if k == 0 then 0 else SilverCost(inputs, tables, k - 1) + if Commits(inputs, tables[k - 1]) then 2 else 1
  }

  lemma {:induction false} SilverCostGrows(inputs: Inputs, tables: seq<Table>, j: nat, k: nat)
    requires j <= k <= |tables|
    ensures SilverCost(inputs, tables, j) <= SilverCost(inputs, tables, k)
    decreases k
  {
    if j < k { SilverCostGrows(inputs, tables, j, k - 1); }
  }

  /** The loop of `_build_silver`: every table is created, filled and compared with manifest and snapshot. */
  method BuildSilverTables(c: IcebergCatalog, run: nat, inputs: Inputs, tables: seq<Table>)
    returns (r: Option<BatchError>)
    requires StageSilver(run) in c.spaces && c.spaces[StageSilver(run)] == map[] && InjectiveOn(tables, NAME_OF)
    modifies c
    ensures c.lost == old(c.lost) && c.spaces - {StageSilver(run)} == old(c.spaces) - {StageSilver(run)}
    ensures r.None? <==> (forall t :: t in tables ==> AsManifested(inputs, t)) &&
                         Affords(old(c.healthy), SilverCost(inputs, tables, |tables|))
    ensures r.None? ==> c.healthy == Spend(old(c.healthy), SilverCost(inputs, tables, |tables|))
    ensures r.None? ==> StageSilver(run) in c.spaces &&
                        c.spaces[StageSilver(run)] == Staged(tables, NAME_OF, SilverMetaOf(run, inputs), |tables|)
  {
    hide Name, Affords, Spend, SilverCost, Staged;
    var ns := StageSilver(run);
    NothingYet(c.healthy, inputs, tables, NAME_OF, SilverMetaOf(run, inputs));
    for k := 0 to |tables|
      invariant c.lost == old(c.lost) && c.spaces - {ns} == old(c.spaces) - {ns}
      invariant Affords(old(c.healthy), SilverCost(inputs, tables, k))
      invariant c.healthy == Spend(old(c.healthy), SilverCost(inputs, tables, k))
      invariant ns in c.spaces && c.spaces[ns] == Staged(tables, NAME_OF, SilverMetaOf(run, inputs), k)
      invariant forall i :: 0 <= i < k ==> AsManifested(inputs, tables[i])
    {
      var t := tables[k];
      NextName(tables, NAME_OF, SilverMetaOf(run, inputs), k);
      SilverSpends(inputs, tables, k, old(c.healthy));
      var actual := StageTable(c, ns, Name(t), run, Some(inputs.sha), SilverRows(inputs, t), 0, Commits(inputs, t));
      if actual.None? { return Some(CatalogDown); }
      var expected := inputs.current(t) + if IsFact(t) then inputs.manifestRows(t) else 0;
      if actual.value != expected {
        assert t in tables;
        return Some(SilverCountDiffers(t));
      }
    }
    r := None;
  }

  /** One table more is afforded from what is left exactly when all of them so far are afforded from the start. */
  lemma SilverSpends(inputs: Inputs, tables: seq<Table>, k: nat, healthy: Option<nat>)
    requires k < |tables| && Affords(healthy, SilverCost(inputs, tables, k))
    ensures var left := Spend(healthy, SilverCost(inputs, tables, k));
            var cost := if Commits(inputs, tables[k]) then 2 else 1;
            && (Affords(left, cost) <==> Affords(healthy, SilverCost(inputs, tables, k + 1)))
            && (Affords(left, cost) ==> Spend(left, cost) == Spend(healthy, SilverCost(inputs, tables, k + 1)))
    ensures Affords(healthy, SilverCost(inputs, tables, |tables|)) ==> Affords(healthy, SilverCost(inputs, tables, k + 1))
  {
    SilverCostGrows(inputs, tables, k + 1, |tables|);
    SpendAgain(healthy, false, SilverCost(inputs, tables, k), if Commits(inputs, tables[k]) then 2 else 1);
  }

  lemma NothingYet(healthy: Option<nat>, inputs: Inputs, tables: seq<Table>, name: Table -> string, meta: Table -> Meta)
    ensures var cost := SilverCost(inputs, tables, 0); Affords(healthy, cost) && Spend(healthy, cost) == healthy
    ensures Staged(tables, name, meta, 0) == map[]
  {
  }

  lemma NextName<K(!new)>(keys: seq<K>, name: K -> string, meta: K -> Meta, k: nat)
    requires k < |keys| && InjectiveOn(keys, name)
    ensures name(keys[k]) !in Staged(keys, name, meta, k)
    ensures Staged(keys, name, meta, k + 1) == Staged(keys, name, meta, k)[name(keys[k]) := meta(keys[k])]
  {
    StagedNames(keys, name, meta, k);
    assert Map(keys, name)[k] == name(keys[k]);
  }

  /** `_build_silver`, in a namespace of its own. */
  method BuildSilver(c: IcebergCatalog, run: nat, inputs: Inputs) returns (r: Option<BatchError>)
    requires StageSilver(run) !in c.spaces
    modifies c
    ensures c.lost == old(c.lost) && c.spaces - {StageSilver(run)} == old(c.spaces) - {StageSilver(run)}
    ensures r.None? <==> SilverBuilds(inputs) && Affords(old(c.healthy), 2 + SilverCost(inputs, TABLES, |TABLES|))
    ensures r.None? ==> c.healthy == Spend(old(c.healthy), 2 + SilverCost(inputs, TABLES, |TABLES|))
    ensures r.None? ==> StageSilver(run) in c.spaces && c.spaces[StageSilver(run)] == SilverStage(run, inputs)
  {
    hide SilverCost, AsManifested;
    SpendAfterEnsure(c.healthy, SilverCost(inputs, TABLES, |TABLES|));
    var ok := EnsureNamespace(c, StageSilver(run));
    if !ok { return Some(CatalogDown); }
    if inputs.bronze != (set t | t in TABLES) { return Some(BronzeTablesDiffer); }
    NamesInjective();
    TablesAreAll();
    r := BuildSilverTables(c, run, inputs, TABLES);
  }

  lemma SpendAfterEnsure(healthy: Option<nat>, n: nat)
    ensures Affords(healthy, 2) ==> (Affords(Spend(healthy, 2), n) <==> Affords(healthy, 2 + n))
    ensures Affords(healthy, 2 + n) ==> Affords(healthy, 2) && Spend(Spend(healthy, 2), n) == Spend(healthy, 2 + n)
  {
  }

  lemma TablesAreAll()
    ensures forall t: Table :: t in TABLES
  {
    forall t: Table ensures t in TABLES {
      match t
      case Markets => assert TABLES[0] == t;
      case Vendors => assert TABLES[1] == t;
      case Buyers => assert TABLES[2] == t;
      case Products => assert TABLES[3] == t;
      case Transactions => assert TABLES[4] == t;
      case TransactionProducts => assert TABLES[5] == t;
      case Sessions => assert TABLES[6] == t;
      case Payments => assert TABLES[7] == t;
      case Risk => assert TABLES[8] == t;
      case Predictions => assert TABLES[9] == t;
    }
  }

  /** The loop of `_build_gold`: an empty model stops the run. */
  method BuildGoldTables(c: IcebergCatalog, run: nat, models: seq<GoldModel>, rows: GoldModel -> nat,
                         counted: GoldModel -> int)
    returns (r: Option<BatchError>)
    requires StageGold(run) in c.spaces && c.spaces[StageGold(run)] == map[] && InjectiveOn(models, GOLD_NAME_OF)
    modifies c
    ensures c.lost == old(c.lost) && c.spaces - {StageGold(run)} == old(c.spaces) - {StageGold(run)}
    ensures r.None? <==> (forall g :: g in models ==> rows(g) > 0) && Affords(old(c.healthy), 2 * |models|)
    ensures r.None? ==> c.healthy == Spend(old(c.healthy), 2 * |models|)
    ensures r.None? ==> StageGold(run) in c.spaces &&
                        c.spaces[StageGold(run)] == Staged(models, GOLD_NAME_OF, GoldMetaOf(run, rows, counted), |models|)
  {
    hide GoldName;
    var ns := StageGold(run);
    for k := 0 to |models|
      invariant c.lost == old(c.lost) && c.spaces - {ns} == old(c.spaces) - {ns}
      invariant Affords(old(c.healthy), 2 * k) && c.healthy == Spend(old(c.healthy), 2 * k)
      invariant ns in c.spaces && c.spaces[ns] == Staged(models, GOLD_NAME_OF, GoldMetaOf(run, rows, counted), k)
      invariant forall i :: 0 <= i < k ==> rows(models[i]) > 0
    {
      var g := models[k];
      NextName(models, GOLD_NAME_OF, GoldMetaOf(run, rows, counted), k);
      var actual := StageTable(c, ns, GoldName(g), run, None, rows(g), counted(g), true);
      if actual.None? { return Some(CatalogDown); }
      if actual.value != rows(g) || actual.value == 0 {
        assert g in models;
        return Some(GoldInvalid);
      }
    }
    r := None;
  }

  /** `_build_gold`, in a namespace of its own. */
  method BuildGold(c: IcebergCatalog, run: nat, inputs: Inputs) returns (r: Option<BatchError>)
    requires StageGold(run) !in c.spaces
    modifies c
    ensures c.lost == old(c.lost) && c.spaces - {StageGold(run)} == old(c.spaces) - {StageGold(run)}
    ensures r.None? <==> GoldBuilds(inputs) && Affords(old(c.healthy), 2 + 2 * |GOLD_MODELS|)
    ensures r.None? ==> c.healthy == Spend(old(c.healthy), 2 + 2 * |GOLD_MODELS|)
    ensures r.None? ==> StageGold(run) in c.spaces && c.spaces[StageGold(run)] == GoldStage(run, inputs)
  {
    hide GoldRows, GoldCounted;
    SpendAfterEnsure(c.healthy, 2 * |GOLD_MODELS|);
    var ok := EnsureNamespace(c, StageGold(run));
    if !ok { return Some(CatalogDown); }
    NamesInjective();
    ModelsAreAll();
    r := BuildGoldTables(c, run, GOLD_MODELS, RowsOf(inputs.data), CountedOf(inputs.data));
  }

  lemma ModelsAreAll()
    ensures forall g: GoldModel :: g in GOLD_MODELS
  {
    forall g: GoldModel ensures g in GOLD_MODELS {
      match g
      case DailyMetrics => assert GOLD_MODELS[0] == g;
      case VendorRisk => assert GOLD_MODELS[1] == g;
      case Buyers360 => assert GOLD_MODELS[2] == g;
      case ProductSales => assert GOLD_MODELS[3] == g;
    }
  }

  // ---------------------------------------------------------------- one run

  /** What readers see: the tables of the two final namespaces. */
  datatype Finals = Finals(silver: Tables, gold: Tables)

  function FinalsOf(spaces: Spaces): Finals { Finals(TablesIn(spaces, FinalSilver), TablesIn(spaces, FinalGold)) }

  /** What a run has staged, and under which names. */
  datatype Plan = Plan(silver: Tables, gold: Tables, silverNames: seq<string>, goldNames: seq<string>)

  ghost function PlanOf(run: nat, inputs: Inputs): Plan {
    Plan(SilverStage(run, inputs), GoldStage(run, inputs), SILVER_NAMES, GOLD_NAMES)
  }

  ghost predicate GoodPlan(p: Plan) {
    && p.silver.Keys == NameSet(p.silverNames) && Distinct(p.silverNames)
    && p.gold.Keys == NameSet(p.goldNames) && Distinct(p.goldNames)
  }

  ghost predicate SilverStands(f: Finals, p: Plan, g: Finals, k: nat, gap: bool) {
    Stands(f.silver, p.silver, p.silverNames, g.silver, k, gap)
  }

  ghost predicate GoldStands(f: Finals, p: Plan, g: Finals, k: nat, gap: bool) {
    Stands(f.gold, p.gold, p.goldNames, g.gold, k, gap)
  }

  ghost predicate StoppedInSilver(f: Finals, p: Plan, g: Finals) {
    g.gold == f.gold && exists k: nat, gap :: SilverStands(f, p, g, k, gap)
  }

  ghost predicate StoppedInGold(f: Finals, p: Plan, g: Finals) {
    SilverStands(f, p, g, |p.silverNames|, false) && exists k: nat, gap :: GoldStands(f, p, g, k, gap)
  }

  /** A successful run has replaced both layers; a failed one stopped in Silver, or after all of Silver in Gold. */
  ghost predicate Outcome(f: Finals, p: Plan, g: Finals, ok: bool) {
    if ok then SilverStands(f, p, g, |p.silverNames|, false) && GoldStands(f, p, g, |p.goldNames|, false)
    else f == g || StoppedInSilver(f, p, g) || StoppedInGold(f, p, g)
  }

  /** The namespaces a run may touch. */
  function Touched(run: nat): set<Namespace> { {StageSilver(run), StageGold(run), FinalSilver, FinalGold} }

  lemma StagedKeys<K(!new)>(keys: seq<K>, name: K -> string, meta: K -> Meta)
    requires InjectiveOn(keys, name)
    ensures Staged(keys, name, meta, |keys|).Keys == NameSet(Map(keys, name)) && Distinct(Map(keys, name))
  {
    StagedNames(keys, name, meta, |keys|);
    assert Map(keys, name)[..|keys|] == Map(keys, name);
  }

  lemma PlanIsGood(run: nat, inputs: Inputs)
    ensures GoodPlan(PlanOf(run, inputs))
    ensures PlanOf(run, inputs).silverNames == SILVER_NAMES && PlanOf(run, inputs).goldNames == GOLD_NAMES
  {
    NamesInjective();
    StagedKeys(TABLES, NAME_OF, SilverMetaOf(run, inputs));
    StagedKeys(GOLD_MODELS, GOLD_NAME_OF, GoldMetaOf(run, RowsOf(inputs.data), CountedOf(inputs.data)));
  }

  // ---------------------------------------------------------------- how far a run gets

  /** The calls of one run, stretch by stretch; one drop of a staging namespace follows the moves of each layer. */
  datatype Calls = Calls(build: nat, silverLead: nat, silver: nat, goldLead: nat, gold: nat)

  /** How many purges and renames took effect in each layer. */
  datatype Moves = Moves(silver: nat, gold: nat)

  function BuildCost(inputs: Inputs): nat { 2 + SilverCost(inputs, TABLES, |TABLES|) + (2 + 2 * |GOLD_MODELS|) }

  /** What publishing both layers takes, found out from the final tables present. */
  function PublishCalls(before: Spaces, silverNames: seq<string>, goldNames: seq<string>): Calls {
    Calls(0, Lead(before, FinalSilver), MoveCost(silverNames, TablesIn(before, FinalSilver).Keys, |silverNames|),
          Lead(before, FinalGold), MoveCost(goldNames, TablesIn(before, FinalGold).Keys, |goldNames|))
  }

  function CallsOf(before: Spaces, inputs: Inputs): Calls {
    PublishCalls(before, SILVER_NAMES, GOLD_NAMES).(build := BuildCost(inputs))
  }

  /** The calls up to and including the last Silver move, then up to the first Gold move, then all of them. */
  function SilverEnd(c: Calls): nat { c.build + c.silverLead + c.silver }

  function GoldStart(c: Calls): nat { SilverEnd(c) + 1 + c.goldLead }

  function TotalCalls(c: Calls): nat { GoldStart(c) + c.gold + 1 }

  /** The moves among the first `calls` calls. */
  function MovesAfter(c: Calls, calls: nat): Moves {
    Moves(Reached(calls, c.build + c.silverLead, c.silver), Reached(calls, GoldStart(c), c.gold))
  }

  /** The final layers after those moves; Gold is touched only when Silver is through. */
  ghost predicate LayersAfter(f: Finals, p: Plan, g: Finals, m: Moves) {
    && StandsAfter(f.silver, p.silver, p.silverNames, g.silver, m.silver)
    && StandsAfter(f.gold, p.gold, p.goldNames, g.gold, m.gold)
    && (m.gold > 0 ==> m.silver == MoveCost(p.silverNames, f.silver.Keys, |p.silverNames|))
  }

  lemma AllMovesMade(final: Tables, stage: Tables, names: seq<string>, now: Tables)
    requires StandsAfter(final, stage, names, now, MoveCost(names, final.Keys, |names|))
    ensures Stands(final, stage, names, now, |names|, false)
  {
    hide Stands;
    var moves := MoveCost(names, final.Keys, |names|);
    var k: nat, gap :| PlacedAt(names, final.Keys, moves, k, gap) && Stands(final, stage, names, now, k, gap);
    MoveCostGrows(names, final.Keys, k, |names|);
    if gap { MoveCostGrows(names, final.Keys, k + 1, |names|); }
  }

  lemma NoMoveMade(final: Tables, stage: Tables, names: seq<string>, now: Tables)
    requires StandsAfter(final, stage, names, now, 0)
    ensures now == final
  {
    var k: nat, gap :| PlacedAt(names, final.Keys, 0, k, gap) && Stands(final, stage, names, now, k, gap);
    MoveCostGrows(names, final.Keys, 0, k);
    MovedNone(final, stage, names);
  }

  /** Whatever the number of moves, the outcome is of one of the kinds above. */
  lemma MovesAreOutcome(f: Finals, p: Plan, g: Finals, m: Moves, ok: bool)
    requires LayersAfter(f, p, g, m)
    requires ok ==> m == Moves(MoveCost(p.silverNames, f.silver.Keys, |p.silverNames|),
                               MoveCost(p.goldNames, f.gold.Keys, |p.goldNames|))
    ensures Outcome(f, p, g, ok)
  {
    hide Stands, MoveCost;
    if ok || m.gold > 0 {
      AllMovesMade(f.silver, p.silver, p.silverNames, g.silver);
    } else {
      NoMoveMade(f.gold, p.gold, p.goldNames, g.gold);
      var k: nat, gap :| PlacedAt(p.silverNames, f.silver.Keys, m.silver, k, gap) && SilverStands(f, p, g, k, gap);
    }
    if ok {
      AllMovesMade(f.gold, p.gold, p.goldNames, g.gold);
    } else if m.gold > 0 {
      var k: nat, gap :| PlacedAt(p.goldNames, f.gold.Keys, m.gold, k, gap) && GoldStands(f, p, g, k, gap);
    }
  }

  lemma NothingMovedYet(f: Finals, p: Plan)
    requires GoodPlan(p)
    ensures LayersAfter(f, p, f, Moves(0, 0))
  {
    NoMoves(f.silver, p.silver, p.silverNames);
    NoMoves(f.gold, p.gold, p.goldNames);
  }

  /** Both staging namespaces hold what is planned. */
  ghost predicate StagedAs(spaces: Spaces, run: nat, p: Plan) {
    && StageSilver(run) in spaces && spaces[StageSilver(run)] == p.silver
    && StageGold(run) in spaces && spaces[StageGold(run)] == p.gold
  }

  /** The body of the `try` in `run`. */
  method Attempt(c: IcebergCatalog, run: nat, inputs: Inputs) returns (r: Option<BatchError>)
    requires StageSilver(run) !in c.spaces && StageGold(run) !in c.spaces
    modifies c
    ensures c.spaces - Touched(run) == old(c.spaces) - Touched(run)
    ensures !(SilverBuilds(inputs) && GoldBuilds(inputs)) ==> FinalsOf(c.spaces) == FinalsOf(old(c.spaces))
    ensures SilverBuilds(inputs) && GoldBuilds(inputs) ==>
              var calls := CallsOf(old(c.spaces), inputs);
              LayersAfter(FinalsOf(old(c.spaces)), PlanOf(run, inputs), FinalsOf(c.spaces),
                          MovesAfter(calls, Effective(old(c.healthy), old(c.lost), TotalCalls(calls))))
    ensures r.None? ==> FinalSilver in c.spaces && FinalGold in c.spaces
    ensures r.None? ==> StageSilver(run) !in c.spaces && StageGold(run) !in c.spaces
    ensures r.None? <==> SilverBuilds(inputs) && GoldBuilds(inputs) &&
                         Affords(old(c.healthy), TotalCalls(CallsOf(old(c.spaces), inputs)))
  {
    hide SilverBuilds, GoldBuilds, LayersAfter, BuildCost, MoveCost, SilverStage, GoldStage, MovesAfter, TotalCalls;
    hide Affords, Spend, Effective, CallsOf, PublishCalls, PlanOf, FinalsOf, StagedAs, GoodPlan, Map;
    ghost var before := c.spaces;
    PlanIsGood(run, inputs);
    NothingMovedYet(FinalsOf(before), PlanOf(run, inputs));
    CallsInTwo(before, inputs);
    BuildThenPublish(c.healthy, c.lost, CallsOf(before, inputs));
    r := BuildBoth(c, run, inputs);
    if r.Some? { return; }
    SamePublishCalls(before, c.spaces);
    r := PublishBoth(c, run, SILVER_NAMES, GOLD_NAMES, PlanOf(run, inputs));
  }

  /** Both layers into their staging namespaces. */
  method BuildBoth(c: IcebergCatalog, run: nat, inputs: Inputs) returns (r: Option<BatchError>)
    requires StageSilver(run) !in c.spaces && StageGold(run) !in c.spaces
    modifies c
    ensures c.lost == old(c.lost) && c.spaces - Touched(run) == old(c.spaces) - Touched(run)
    ensures r.None? <==> SilverBuilds(inputs) && GoldBuilds(inputs) && Affords(old(c.healthy), BuildCost(inputs))
    ensures r.None? ==> c.healthy == Spend(old(c.healthy), BuildCost(inputs))
    ensures r.None? ==> StagedAs(c.spaces, run, PlanOf(run, inputs))
    ensures FinalsOf(c.spaces) == FinalsOf(old(c.spaces))
    ensures forall ns :: !IsStage(ns) ==>
              (ns in c.spaces <==> ns in old(c.spaces)) && TablesIn(c.spaces, ns) == TablesIn(old(c.spaces), ns)
  {
    hide SilverBuilds, GoldBuilds, SilverCost, SilverStage, GoldStage, Touched, FinalsOf, TablesIn, IsStage, Map;
    ghost var h, before, silverCost := c.healthy, c.spaces, 2 + SilverCost(inputs, TABLES, |TABLES|);
    if Affords(h, silverCost) { SpendAgain(h, c.lost, silverCost, 2 + 2 * |GOLD_MODELS|); }
    r := BuildSilver(c, run, inputs);
    ghost var mid := c.spaces;
    if r.Some? {
      KeptByBoth(before, mid, mid, run);
      return;
    }
    StillThere(before, mid, StageSilver(run), StageGold(run));
    r := BuildGold(c, run, inputs);
    KeptByBoth(before, mid, c.spaces, run);
    StillThere(mid, c.spaces, StageGold(run), StageSilver(run));
  }

  lemma StillThere(a: Spaces, b: Spaces, stage: Namespace, ns: Namespace)
    requires a - {stage} == b - {stage} && ns != stage
    ensures (ns in a <==> ns in b) && TablesIn(a, ns) == TablesIn(b, ns) && (ns in a ==> a[ns] == b[ns])
  {
    assert (ns in a - {stage} <==> ns in a) && (ns in b - {stage} <==> ns in b);
    if ns in a {
      assert (a - {stage})[ns] == a[ns] && (b - {stage})[ns] == b[ns];
    }
  }

  lemma KeptOutside(a: Spaces, b: Spaces, stage: Namespace, run: nat)
    requires stage == StageSilver(run) || stage == StageGold(run)
    requires a - {stage} == b - {stage}
    ensures a - Touched(run) == b - Touched(run) && FinalsOf(a) == FinalsOf(b)
    ensures forall ns :: !IsStage(ns) ==> (ns in a <==> ns in b) && TablesIn(a, ns) == TablesIn(b, ns)
  {
    assert (a - {stage}) - Touched(run) == a - Touched(run) && (b - {stage}) - Touched(run) == b - Touched(run);
    forall ns | !IsStage(ns) ensures (ns in a <==> ns in b) && TablesIn(a, ns) == TablesIn(b, ns) {
      StillThere(a, b, stage, ns);
    }
  }

  /** Building one layer and then the other leaves everything else as it was. */
  lemma KeptByBoth(a: Spaces, mid: Spaces, b: Spaces, run: nat)
    requires a - {StageSilver(run)} == mid - {StageSilver(run)} && mid - {StageGold(run)} == b - {StageGold(run)}
    ensures a - Touched(run) == b - Touched(run) && FinalsOf(a) == FinalsOf(b)
    ensures forall ns :: !IsStage(ns) ==> (ns in a <==> ns in b) && TablesIn(a, ns) == TablesIn(b, ns)
  {
    KeptOutside(a, mid, StageSilver(run), run);
    KeptOutside(mid, b, StageGold(run), run);
  }

  lemma CallsInTwo(before: Spaces, inputs: Inputs)
    ensures CallsOf(before, inputs).build == BuildCost(inputs)
    ensures CallsOf(before, inputs).(build := 0) == PublishCalls(before, SILVER_NAMES, GOLD_NAMES)
  {
    hide MoveCost, BuildCost;
  }

  lemma SamePublishCalls(a: Spaces, b: Spaces)
    requires forall ns :: !IsStage(ns) ==> (ns in a <==> ns in b) && TablesIn(a, ns) == TablesIn(b, ns)
    ensures PublishCalls(a, SILVER_NAMES, GOLD_NAMES) == PublishCalls(b, SILVER_NAMES, GOLD_NAMES)
  {
    hide MoveCost, Map, TablesIn;
    assert !IsStage(FinalSilver) && !IsStage(FinalGold);
  }

  /** A run that does not get through building makes no move; one that does makes those of its publications. */
  lemma BuildThenPublish(healthy: Option<nat>, lost: bool, c: Calls)
    ensures var calls := Effective(healthy, lost, TotalCalls(c));
            var publish := c.(build := 0);
            && (!Affords(healthy, c.build) ==> MovesAfter(c, calls) == Moves(0, 0) && !Affords(healthy, TotalCalls(c)))
            && (Affords(healthy, c.build) ==>
                  var rest := Spend(healthy, c.build);
                  && (Affords(rest, TotalCalls(publish)) <==> Affords(healthy, TotalCalls(c)))
                  && MovesAfter(c, calls) == MovesAfter(publish, Effective(rest, lost, TotalCalls(publish))))
  {
    if Affords(healthy, c.build) {
      SpendAgain(healthy, lost, c.build, TotalCalls(c.(build := 0)));
    }
  }

  /** The Silver publication first, and after all of it the Gold one. */
  lemma SilverThenGold(healthy: Option<nat>, lost: bool, c: Calls)
    requires c.build == 0
    ensures var calls := Effective(healthy, lost, TotalCalls(c));
            var first := c.silverLead + c.silver + 1;
            var second := c.goldLead + c.gold + 1;
            && MovesAfter(c, calls).silver == Reached(Effective(healthy, lost, first), c.silverLead, c.silver)
            && (!Affords(healthy, first) ==> !Affords(healthy, TotalCalls(c)) && MovesAfter(c, calls).gold == 0)
            && (Affords(healthy, first) ==>
                  var rest := Spend(healthy, first);
                  && (Affords(rest, second) <==> Affords(healthy, TotalCalls(c)))
                  && MovesAfter(c, calls).silver == c.silver
                  && MovesAfter(c, calls).gold == Reached(Effective(rest, lost, second), c.goldLead, c.gold))
  {
    if Affords(healthy, c.silverLead + c.silver + 1) {
      SpendAgain(healthy, lost, c.silverLead + c.silver + 1, c.goldLead + c.gold + 1);
    }
  }

  /** Silver first, then Gold. */
  method PublishBoth(c: IcebergCatalog, run: nat, silverNames: seq<string>, goldNames: seq<string>, ghost p: Plan)
    returns (r: Option<BatchError>)
    requires GoodPlan(p) && p.silverNames == silverNames && p.goldNames == goldNames
    requires StagedAs(c.spaces, run, p)
    modifies c
    ensures c.spaces - Touched(run) == old(c.spaces) - Touched(run)
    ensures var calls := PublishCalls(old(c.spaces), silverNames, goldNames);
            && (r.None? <==> Affords(old(c.healthy), TotalCalls(calls)))
            && LayersAfter(FinalsOf(old(c.spaces)), p, FinalsOf(c.spaces),
                           MovesAfter(calls, Effective(old(c.healthy), old(c.lost), TotalCalls(calls))))
    ensures r.None? ==> FinalSilver in c.spaces && FinalGold in c.spaces
    ensures r.None? ==> StageSilver(run) !in c.spaces && StageGold(run) !in c.spaces
  {
    hide StandsAfter, MoveCost;
    ghost var before, h := c.spaces, c.healthy;
    ghost var calls := PublishCalls(before, silverNames, goldNames);
    SilverThenGold(h, c.lost, calls);
    NoMoves(TablesIn(before, FinalGold), p.gold, p.goldNames);
    var ok := PublishLayer(c, StageSilver(run), FinalSilver, silverNames);
    OthersOutside(before, c.spaces, StageSilver(run), FinalSilver, run);
    if !ok { return Some(CatalogDown); }
    ghost var mid := c.spaces;
    ok := PublishLayer(c, StageGold(run), FinalGold, goldNames);
    OthersOutside(mid, c.spaces, StageGold(run), FinalGold, run);
    r := if ok then None else Some(CatalogDown);
  }

  lemma OthersOutside(a: Spaces, b: Spaces, x: Namespace, y: Namespace, run: nat)
    requires OthersKept(a, b, x, y) && x in Touched(run) && y in Touched(run)
    ensures a - Touched(run) == b - Touched(run)
    ensures forall ns :: ns != x && ns != y ==> (ns in a <==> ns in b) && TablesIn(a, ns) == TablesIn(b, ns)
  {
    assert (a - {x, y}) - Touched(run) == a - Touched(run) && (b - {x, y}) - Touched(run) == b - Touched(run);
    forall ns | ns != x && ns != y ensures (ns in a <==> ns in b) && TablesIn(a, ns) == TablesIn(b, ns) {
      assert (ns in a - {x, y} <==> ns in a) && (ns in b - {x, y} <==> ns in b);
      assert ns in a ==> (a - {x, y})[ns] == a[ns];
      assert ns in b ==> (b - {x, y})[ns] == b[ns];
    }
  }

  /**
   One run, with a catalog call failing after `healthy` of them (or none). Whatever happens, the staging namespaces are
   gone afterwards and nothing but the two final namespaces has changed; and those have seen exactly the purges and
   renames that come before the failure, or at it when only its answer was lost.
   */
  method Run(c: IcebergCatalog, run: nat, inputs: Inputs, healthy: Option<nat>, lost: bool)
    returns (r: Option<BatchError>)
    requires StageSilver(run) !in c.spaces && StageGold(run) !in c.spaces
    modifies c
    ensures OthersKept(old(c.spaces), c.spaces, FinalSilver, FinalGold)
    ensures r.None? <==> SilverBuilds(inputs) && GoldBuilds(inputs) &&
                         Affords(healthy, TotalCalls(CallsOf(old(c.spaces), inputs)))
    ensures r.None? ==> FinalSilver in c.spaces && FinalGold in c.spaces
    ensures !(SilverBuilds(inputs) && GoldBuilds(inputs)) ==> FinalsOf(c.spaces) == FinalsOf(old(c.spaces))
    ensures SilverBuilds(inputs) && GoldBuilds(inputs) ==>
              var calls := CallsOf(old(c.spaces), inputs);
              LayersAfter(FinalsOf(old(c.spaces)), PlanOf(run, inputs), FinalsOf(c.spaces),
                          MovesAfter(calls, Effective(healthy, lost, TotalCalls(calls))))
    ensures Outcome(FinalsOf(old(c.spaces)), PlanOf(run, inputs), FinalsOf(c.spaces), r.None?)
  {
    hide Outcome, PlanOf, SilverBuilds, GoldBuilds, LayersAfter, CallsOf, MovesAfter, TotalCalls;
    c.healthy, c.lost := healthy, lost;
    r := Attempt(c, run, inputs);
    ghost var left := c.spaces;
    if r.Some? {
      c.healthy := None;
      RemoveNamespace(c, StageGold(run));
      RemoveNamespace(c, StageSilver(run));
    }
    CleanedUp(old(c.spaces), left, c.spaces, run);
    RunIsOutcome(old(c.spaces), run, inputs, healthy, lost, FinalsOf(c.spaces), r.None?);
  }

  lemma RunIsOutcome(before: Spaces, run: nat, inputs: Inputs, healthy: Option<nat>, lost: bool, g: Finals, ok: bool)
    requires ok <==> SilverBuilds(inputs) && GoldBuilds(inputs) && Affords(healthy, TotalCalls(CallsOf(before, inputs)))
    requires !(SilverBuilds(inputs) && GoldBuilds(inputs)) ==> g == FinalsOf(before)
    requires SilverBuilds(inputs) && GoldBuilds(inputs) ==>
               var calls := CallsOf(before, inputs);
               LayersAfter(FinalsOf(before), PlanOf(run, inputs), g,
                           MovesAfter(calls, Effective(healthy, lost, TotalCalls(calls))))
    ensures Outcome(FinalsOf(before), PlanOf(run, inputs), g, ok)
  {
    hide SilverBuilds, GoldBuilds, LayersAfter, MoveCost, SilverStage, GoldStage, StoppedInSilver, StoppedInGold;
    if SilverBuilds(inputs) && GoldBuilds(inputs) {
      var calls := CallsOf(before, inputs);
      MovesAreOutcome(FinalsOf(before), PlanOf(run, inputs), g,
                      MovesAfter(calls, Effective(healthy, lost, TotalCalls(calls))), ok);
    }
  }

  lemma CleanedUp(before: Spaces, left: Spaces, after: Spaces, run: nat)
    requires StageSilver(run) !in before && StageGold(run) !in before
    requires left - Touched(run) == before - Touched(run)
    requires after == left - {StageGold(run)} - {StageSilver(run)} ||
             (after == left && StageSilver(run) !in left && StageGold(run) !in left)
    ensures OthersKept(before, after, FinalSilver, FinalGold) && FinalsOf(after) == FinalsOf(left)
  {
    assert after - {FinalSilver, FinalGold} == left - Touched(run);
    assert before - {FinalSilver, FinalGold} == before - Touched(run);
  }
}

/** Publishing is not atomic: exactly when a failed run leaves the final layers whole, and two runs that do not. */
module BatchFailures {
  import opened Collections
  import opened Catalog
  import opened Publish
  import opened Batch
  import opened BatchRuns
  import opened BatchOverLive

  // ---------------------------------------------------------------- one layer

  /** All of these tables are there, with this batch. */
  ghost predicate LayerOf(now: Tables, names: seq<string>, run: nat) {
    forall n :: n in names ==> n in now && now[n].batch == run
  }

  /** Part of the moves of a layer leave it neither as it was nor of one batch. */
  lemma PartWay(final: Tables, stage: Tables, names: seq<string>, now: Tables, moves: nat, run: nat)
    requires StandsAfter(final, stage, names, now, moves) && Distinct(names) && Below(final, names, run)
    requires LayerOf(stage, names, run) && 0 < moves < MoveCost(names, final.Keys, |names|)
    ensures now != final && !LayerOf(now, names, run)
  {
    hide Stands;
    var k: nat, gap :| PlacedAt(names, final.Keys, moves, k, gap) && Stands(final, stage, names, now, k, gap);
    PlaceOpen(final, stage, names, now, k, gap, run);
  }

  /** A layer that stands before its last name, with a table replaced or purged, is neither old nor new. */
  lemma PlaceOpen(final: Tables, stage: Tables, names: seq<string>, now: Tables, k: nat, gap: bool, run: nat)
    requires Stands(final, stage, names, now, k, gap) && Distinct(names) && Below(final, names, run)
    requires LayerOf(stage, names, run) && k < |names| && (k > 0 || gap) && (gap ==> names[k] in final)
    ensures now != final && !LayerOf(now, names, run)
  {
    hide Stands;
    assert names[0] in names && names[k] in names;
    StandsAt(final, stage, names, now, k, gap, 0);
    StandsAt(final, stage, names, now, k, gap, k);
  }

  /** All of its moves give the layer the new batch, which it did not have. */
  lemma Through(final: Tables, stage: Tables, names: seq<string>, now: Tables, run: nat)
    requires StandsAfter(final, stage, names, now, MoveCost(names, final.Keys, |names|)) && Distinct(names) && names != []
    requires LayerOf(stage, names, run) && Below(final, names, run)
    ensures LayerOf(now, names, run) && now != final
  {
    hide Stands, MoveCost;
    AllMovesMade(final, stage, names, now);
    forall n | n in names ensures n in now && now[n].batch == run {
      var j :| 0 <= j < |names| && names[j] == n;
      StandsAt(final, stage, names, now, |names|, false, j);
    }
    assert names[0] in names;
  }

  /** None of its moves leave the layer as it was, which is not of the new batch. */
  lemma Untouched(final: Tables, stage: Tables, names: seq<string>, now: Tables, run: nat)
    requires StandsAfter(final, stage, names, now, 0) && names != [] && Below(final, names, run)
    ensures now == final && !LayerOf(now, names, run)
  {
    hide Stands;
    NoMoveMade(final, stage, names, now);
    assert names[0] in names;
  }

  lemma LayerCases(final: Tables, stage: Tables, names: seq<string>, now: Tables, moves: nat, run: nat)
    requires StandsAfter(final, stage, names, now, moves) && Distinct(names) && names != [] && Below(final, names, run)
    requires LayerOf(stage, names, run) && moves <= MoveCost(names, final.Keys, |names|)
    ensures now == final <==> moves == 0
    ensures LayerOf(now, names, run) <==> moves == MoveCost(names, final.Keys, |names|)
  {
    hide StandsAfter, MoveCost;
    SomeMoves(names, final.Keys);
    if moves == 0 {
      Untouched(final, stage, names, now, run);
    } else if moves < MoveCost(names, final.Keys, |names|) {
      PartWay(final, stage, names, now, moves, run);
    } else {
      Through(final, stage, names, now, run);
    }
  }

  lemma SomeMoves(names: seq<string>, existing: set<string>)
    requires names != []
    ensures MoveCost(names, existing, |names|) > 0
  {
    MoveCostGrows(names, existing, 0, |names|);
  }

  // ---------------------------------------------------------------- both layers

  /** Readers find the layers as they were, or every expected table of the run's batch. */
  ghost predicate Whole(f: Finals, g: Finals, e: Expected, run: nat) {
    g == f || OneBatch(g, e.silver, e.gold, run)
  }

  lemma WholeIff(f: Finals, p: Plan, g: Finals, m: Moves, run: nat)
    requires Stamped(p, run) && LayersAfter(f, p, g, m) && p.silverNames != [] && p.goldNames != []
    requires Below(f.silver, p.silverNames, run) && Below(f.gold, p.goldNames, run)
    requires m.silver <= MoveCost(p.silverNames, f.silver.Keys, |p.silverNames|)
    requires m.gold <= MoveCost(p.goldNames, f.gold.Keys, |p.goldNames|)
    ensures Whole(f, g, Expected(p.silverNames, p.goldNames), run)
            <==> m == Moves(0, 0) || m == Moves(MoveCost(p.silverNames, f.silver.Keys, |p.silverNames|),
                                                MoveCost(p.goldNames, f.gold.Keys, |p.goldNames|))
  {
    hide StandsAfter, MoveCost;
    LayerCases(f.silver, p.silver, p.silverNames, g.silver, m.silver, run);
    LayerCases(f.gold, p.gold, p.goldNames, g.gold, m.gold, run);
    SomeMoves(p.silverNames, f.silver.Keys);
    SomeMoves(p.goldNames, f.gold.Keys);
    assert OneBatch(g, p.silverNames, p.goldNames, run) <==>
           LayerOf(g.silver, p.silverNames, run) && LayerOf(g.gold, p.goldNames, run);
  }

  /** The calls of a failed run that took effect. */
  function FailedAfter(healthy: nat, lost: bool): nat { healthy + if lost then 1 else 0 }

  /**
   A run that fails leaves the final layers whole if and only if the failing call comes before the first purge or rename
   to take effect, or after the last: of the `FailedAfter` calls that took effect either none or all moves are among
   them. Where these lie is known from the tables present when the run starts.
   */
  lemma FailedRunIsWholeIff(before: Spaces, run: nat, inputs: Inputs, healthy: nat, lost: bool, g: Finals)
    requires var calls := CallsOf(before, inputs);
             && !Affords(Some(healthy), TotalCalls(calls))
             && LayersAfter(FinalsOf(before), PlanOf(run, inputs), g,
                            MovesAfter(calls, Effective(Some(healthy), lost, TotalCalls(calls))))
    requires Below(TablesIn(before, FinalSilver), SILVER_NAMES, run) && Below(TablesIn(before, FinalGold), GOLD_NAMES, run)
    ensures var calls := CallsOf(before, inputs);
            Whole(FinalsOf(before), g, EXPECTED, run) <==>
            FailedAfter(healthy, lost) <= calls.build + calls.silverLead ||
            FailedAfter(healthy, lost) >= GoldStart(calls) + calls.gold
  {
    hide LayersAfter, MoveCost, Below, SilverStage, GoldStage, Stamped, Whole, BuildCost;
    var calls := CallsOf(before, inputs);
    PlanIsStamped(run, inputs);
    TenAndFour();
    WholeIff(FinalsOf(before), PlanOf(run, inputs), g,
             MovesAfter(calls, Effective(Some(healthy), lost, TotalCalls(calls))), run);
    SomeMoves(SILVER_NAMES, TablesIn(before, FinalSilver).Keys);
    SomeMoves(GOLD_NAMES, TablesIn(before, FinalGold).Keys);
  }

  lemma TenAndFour()
    ensures |SILVER_NAMES| == 10 && |GOLD_NAMES| == 4
  {
  }

  // ---------------------------------------------------------------- two runs that do not

  /** No table is missing, and the first is of a newer batch than the second. */
  ghost predicate Mixed(now: Tables, names: seq<string>, run: nat) {
    && Absent(now, names) == {} && |names| >= 2 && names[0] in now && names[1] in now
    && now[names[0]].batch == run > now[names[1]].batch
  }

  /** Over a complete layer the first two moves replace one table and leave the others with their old batch. */
  lemma AfterTwoMoves(final: Tables, stage: Tables, names: seq<string>, now: Tables, run: nat)
    requires StandsAfter(final, stage, names, now, 2) && Distinct(names) && |names| >= 2 && Absent(final, names) == {}
    requires LayerOf(stage, names, run) && Below(final, names, run)
    ensures Mixed(now, names, run)
  {
    hide Stands;
    var k: nat, gap :| PlacedAt(names, final.Keys, 2, k, gap) && Stands(final, stage, names, now, k, gap);
    AllThere(final, names);
    FirstCost(names, final.Keys, k);
    assert k == 1 && !gap;
    forall n | n in names ensures n in now {
      var j :| 0 <= j < |names| && names[j] == n;
      StandsAt(final, stage, names, now, k, gap, j);
    }
    assert names[0] in names && names[1] in names;
    StandsAt(final, stage, names, now, k, gap, 0);
    StandsAt(final, stage, names, now, k, gap, 1);
  }

  /** The first move alone leaves it one table short. */
  lemma AfterOneMove(final: Tables, stage: Tables, names: seq<string>, now: Tables)
    requires StandsAfter(final, stage, names, now, 1) && Distinct(names) && |names| >= 2 && Absent(final, names) == {}
    ensures Absent(now, names) == {names[0]}
  {
    hide Stands;
    var k: nat, gap :| PlacedAt(names, final.Keys, 1, k, gap) && Stands(final, stage, names, now, k, gap);
    AllThere(final, names);
    FirstCost(names, final.Keys, k);
    assert k == 0 && gap;
    forall n | n in names ensures n in now <==> n != names[0] {
      var j :| 0 <= j < |names| && names[j] == n;
      StandsAt(final, stage, names, now, k, gap, j);
    }
  }

  lemma AllThere(final: Tables, names: seq<string>)
    requires Absent(final, names) == {}
    ensures forall n :: n in names ==> n in final
  {
    forall n | n in names ensures n in final { assert n !in Absent(final, names); }
  }

  lemma FirstCost(names: seq<string>, existing: set<string>, k: nat)
    requires |names| >= 2 && names[0] in existing && k <= |names|
    ensures MoveCost(names, existing, 0) == 0 && MoveCost(names, existing, 1) == 2
    ensures k >= 2 ==> MoveCost(names, existing, k) >= 3
  {
    if k >= 2 { MoveCostGrows(names, existing, 1, k); }
  }

  /** What the first run over an empty catalog leaves: both layers complete, of batch 1. */
  lemma FirstRun(g: Finals)
    requires Outcome(Finals(map[], map[]), PlanOf(1, OneSaleInputs()), g, true)
    ensures OneBatch(g, SILVER_NAMES, GOLD_NAMES, 1) && Absent(g.silver, SILVER_NAMES) == {}
    ensures Below(g.silver, SILVER_NAMES, 2)
  {
    hide Outcome, Stamped;
    PlanIsStamped(1, OneSaleInputs());
    AllMoved(Finals(map[], map[]), PlanOf(1, OneSaleInputs()), g, 1);
  }

  /** What a run over a complete Silver layer leaves when it fails after its first or its second move. */
  lemma StoppedEarly(f: Finals, p: Plan, g: Finals, moves: nat, run: nat)
    requires Stamped(p, run) && LayersAfter(f, p, g, Moves(moves, 0)) && 1 <= moves <= 2 && |p.silverNames| >= 2
    requires Absent(f.silver, p.silverNames) == {} && Below(f.silver, p.silverNames, run)
    ensures moves == 1 ==> Absent(g.silver, p.silverNames) == {p.silverNames[0]}
    ensures moves == 2 ==> Mixed(g.silver, p.silverNames, run)
  {
    hide StandsAfter, MoveCost;
    if moves == 1 {
      AfterOneMove(f.silver, p.silver, p.silverNames, g.silver);
    } else {
      AfterTwoMoves(f.silver, p.silver, p.silverNames, g.silver, run);
    }
  }

  lemma SecondRun(before: Finals, moves: nat, after: Finals)
    requires Absent(before.silver, SILVER_NAMES) == {} && Below(before.silver, SILVER_NAMES, 2)
    requires LayersAfter(before, PlanOf(2, OneSaleInputs()), after, Moves(moves, 0)) && 1 <= moves <= 2
    ensures moves == 1 ==> Absent(after.silver, SILVER_NAMES) == {SILVER_NAMES[0]}
    ensures moves == 2 ==> Mixed(after.silver, SILVER_NAMES, 2)
  {
    hide LayersAfter, SilverStage, GoldStage, Stamped, Below;
    PlanIsStamped(2, OneSaleInputs());
    TenAndFour();
    StoppedEarly(before, PlanOf(2, OneSaleInputs()), after, moves, 2);
  }

  lemma OnlyFinals(spaces: Spaces)
    requires OthersKept(map[], spaces, FinalSilver, FinalGold)
    ensures forall ns :: ns in spaces ==> !IsStage(ns)
  {
    forall ns | IsStage(ns) ensures ns !in spaces {
      assert ns in spaces ==> ns in spaces - {FinalSilver, FinalGold};
    }
  }

  lemma FewMoves(calls: Calls, moves: nat)
    requires 1 <= moves < calls.silver
    ensures var healthy := Some(calls.build + calls.silverLead + moves);
            !Affords(healthy, TotalCalls(calls)) &&
            MovesAfter(calls, Effective(healthy, false, TotalCalls(calls))) == Moves(moves, 0)
  {
  }

  lemma ManySilverMoves(existing: set<string>)
    ensures MoveCost(SILVER_NAMES, existing, |SILVER_NAMES|) >= 10
  {
    TenAndFour();
    MoveCostGrows(SILVER_NAMES, existing, 0, |SILVER_NAMES|);
  }

  /**
   A healthy run and then one that fails after its first move leave Silver one table short; failing after the second,
   they leave it complete but of two batches.
   */
  method FailAfterMoves(moves: nat) returns (c: IcebergCatalog, r: Option<BatchError>)
    requires 1 <= moves <= 2
    ensures r.Some?
    ensures moves == 1 ==> Absent(TablesIn(c.spaces, FinalSilver), SILVER_NAMES) == {SILVER_NAMES[0]}
    ensures moves == 2 ==> Mixed(TablesIn(c.spaces, FinalSilver), SILVER_NAMES, 2)
  {
    hide Outcome, PlanOf, SilverBuilds, GoldBuilds, LayersAfter, MoveCost, SilverCost, MovesAfter, TotalCalls,
         OneBatch, Below, Mixed;
    OneSaleBuilds();
    c := new IcebergCatalog(map[], None, false);
    r := Run(c, 1, OneSaleInputs(), None, false);
    FirstRun(FinalsOf(c.spaces));
    ghost var before := c.spaces;
    var calls := CallsOf(c.spaces, OneSaleInputs());
    ManySilverMoves(TablesIn(c.spaces, FinalSilver).Keys);
    FewMoves(calls, moves);
    OnlyFinals(c.spaces);
    r := Run(c, 2, OneSaleInputs(), Some(calls.build + calls.silverLead + moves), false);
    SecondRun(FinalsOf(before), moves, FinalsOf(c.spaces));
  }
}

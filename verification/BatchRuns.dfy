/** Any sequence of batch runs, failing anywhere: what the final layers keep, and how one good run restores them. */
module BatchRuns {
  import opened Collections
  import opened Catalog
  import opened Publish
  import opened Batch

  /** What a publication in progress means for each name. */
  lemma StandsAt(final: Tables, stage: Tables, names: seq<string>, now: Tables, k: nat, gap: bool, j: nat)
    requires Stands(final, stage, names, now, k, gap) && Distinct(names) && j < |names|
    ensures names[j] in stage
    ensures j < k ==> names[j] in now && now[names[j]] == stage[names[j]]
    ensures j == k && gap ==> names[j] !in now
    ensures j >= k && !(j == k && gap) ==> (names[j] in now <==> names[j] in final) &&
                                           (names[j] in now ==> now[names[j]] == final[names[j]])
  {
    assert names[j] in names;
    if j < k {
      assert names[..k][j] == names[j];
    } else {
      assert names[j] !in names[..k];
    }
  }

  ghost predicate Stamped(p: Plan, run: nat) {
    && GoodPlan(p)
    && (forall n :: n in p.silverNames ==> n in p.silver && p.silver[n].batch == run)
    && (forall n :: n in p.goldNames ==> n in p.gold && p.gold[n].batch == run)
  }

  ghost predicate Below(t: Tables, names: seq<string>, limit: nat) {
    forall n :: n in names && n in t ==> t[n].batch < limit
  }

  ghost predicate Above(t: Tables, names: seq<string>, limit: nat) {
    forall n :: n in names && n in t ==> t[n].batch >= limit
  }

  /** No present Gold table is newer than any present Silver table, and all are older than the next run. */
  ghost predicate Ordered(f: Finals, silver: seq<string>, gold: seq<string>, next: nat) {
    && Below(f.silver, silver, next) && Below(f.gold, gold, next)
    && forall m, n :: m in silver && m in f.silver && n in gold && n in f.gold ==> f.silver[m].batch >= f.gold[n].batch
  }

  lemma LayerAdvances(final: Tables, stage: Tables, names: seq<string>, now: Tables, k: nat, gap: bool, run: nat, limit: nat)
    requires Stands(final, stage, names, now, k, gap) && Distinct(names)
    requires forall n :: n in names ==> n in stage && stage[n].batch == run
    requires Below(final, names, run)
    ensures Below(now, names, run + 1)
    ensures limit <= run && Above(final, names, limit) ==> Above(now, names, limit)
    ensures k == |names| ==> forall n :: n in names ==> n in now && now[n] == stage[n]
  {
    forall n | n in names && n in now
      ensures now[n].batch < run + 1 && (now[n].batch == run || (n in final && now[n] == final[n]))
    {
      var j :| 0 <= j < |names| && names[j] == n;
      StandsAt(final, stage, names, now, k, gap, j);
    }
    if k == |names| {
      forall n | n in names ensures n in now && now[n] == stage[n] {
        var j :| 0 <= j < |names| && names[j] == n;
        StandsAt(final, stage, names, now, k, gap, j);
      }
    }
  }

  /** Silver that has only moved forward stays ahead of a Gold layer that has not moved. */
  lemma SilverStopKeeps(f: Finals, p: Plan, g: Finals, run: nat)
    requires Ordered(f, p.silverNames, p.goldNames, run) && Stamped(p, run) && StoppedInSilver(f, p, g)
    ensures Ordered(g, p.silverNames, p.goldNames, run + 1)
  {
    var k: nat, gap :| SilverStands(f, p, g, k, gap);
    forall m, n | m in p.silverNames && m in g.silver && n in p.goldNames && n in g.gold
      ensures g.silver[m].batch >= g.gold[n].batch
    {
      LayerAdvances(f.silver, p.silver, p.silverNames, g.silver, k, gap, run, g.gold[n].batch);
    }
    LayerAdvances(f.silver, p.silver, p.silverNames, g.silver, k, gap, run, 0);
  }

  lemma GoldStopKeeps(f: Finals, p: Plan, g: Finals, run: nat, k: nat, gap: bool)
    requires Ordered(f, p.silverNames, p.goldNames, run) && Stamped(p, run)
    requires SilverStands(f, p, g, |p.silverNames|, false) && GoldStands(f, p, g, k, gap)
    ensures Ordered(g, p.silverNames, p.goldNames, run + 1)
  {
    LayerAdvances(f.silver, p.silver, p.silverNames, g.silver, |p.silverNames|, false, run, 0);
    LayerAdvances(f.gold, p.gold, p.goldNames, g.gold, k, gap, run, 0);
  }

  lemma OutcomeKeeps(f: Finals, p: Plan, g: Finals, ok: bool, run: nat)
    requires Ordered(f, p.silverNames, p.goldNames, run) && Stamped(p, run) && Outcome(f, p, g, ok)
    ensures Ordered(g, p.silverNames, p.goldNames, run + 1)
  {
    if ok {
      GoldStopKeeps(f, p, g, run, |p.goldNames|, false);
    } else if StoppedInSilver(f, p, g) {
      SilverStopKeeps(f, p, g, run);
    } else if StoppedInGold(f, p, g) {
      var k: nat, gap :| GoldStands(f, p, g, k, gap);
      GoldStopKeeps(f, p, g, run, k, gap);
    }
  }

  // ---------------------------------------------------------------- missing tables

  ghost function Absent(t: Tables, names: seq<string>): set<string> { set n | n in names && n !in t }

  /** How many expected tables readers do not find. */
  ghost function Missing(f: Finals, silver: seq<string>, gold: seq<string>): nat {
    |Absent(f.silver, silver)| + |Absent(f.gold, gold)|
  }

  lemma SubsetSize<T>(a: set<T>, b: set<T>)
    requires a <= b
    ensures |a| <= |b|
  {
    assert b == a + (b - a);
  }

  /** A publication opens at most one gap, and none when it is through. */
  lemma LayerMisses(final: Tables, stage: Tables, names: seq<string>, now: Tables, k: nat, gap: bool)
    requires Stands(final, stage, names, now, k, gap) && Distinct(names)
    ensures |Absent(now, names)| <= |Absent(final, names)| + 1
    ensures k == |names| ==> Absent(now, names) == {}
  {
    var may := Absent(final, names) + if k < |names| then {names[k]} else {};
    forall n | n in Absent(now, names) ensures n in may && k < |names| {
      var j :| 0 <= j < |names| && names[j] == n;
      StandsAt(final, stage, names, now, k, gap, j);
    }
    SubsetSize(Absent(now, names), may);
  }

  /** A failed run leaves at most one more expected table missing; a successful one leaves none, all of one batch. */
  lemma OutcomeMisses(f: Finals, p: Plan, g: Finals, ok: bool, run: nat)
    requires Stamped(p, run) && Outcome(f, p, g, ok)
    ensures Missing(g, p.silverNames, p.goldNames) <= Missing(f, p.silverNames, p.goldNames) + 1
    ensures ok ==> Missing(g, p.silverNames, p.goldNames) == 0 && OneBatch(g, p.silverNames, p.goldNames, run)
  {
    if ok || StoppedInGold(f, p, g) {
      LayerMisses(f.silver, p.silver, p.silverNames, g.silver, |p.silverNames|, false);
      var k: nat, gap :| GoldStands(f, p, g, k, gap) && (ok ==> k == |p.goldNames| && !gap);
      LayerMisses(f.gold, p.gold, p.goldNames, g.gold, k, gap);
    } else if StoppedInSilver(f, p, g) {
      var k: nat, gap :| SilverStands(f, p, g, k, gap);
      LayerMisses(f.silver, p.silver, p.silverNames, g.silver, k, gap);
    }
    if ok { AllMoved(f, p, g, run); }
  }

  ghost predicate OneBatch(f: Finals, silver: seq<string>, gold: seq<string>, run: nat) {
    && (forall n :: n in silver ==> n in f.silver && f.silver[n].batch == run)
    && (forall n :: n in gold ==> n in f.gold && f.gold[n].batch == run)
  }

  /** After a successful run every expected table is the staged one. */
  lemma AllMoved(f: Finals, p: Plan, g: Finals, run: nat)
    requires Stamped(p, run) && Outcome(f, p, g, true)
    ensures forall n :: n in p.silverNames ==> n in g.silver && g.silver[n] == p.silver[n]
    ensures forall n :: n in p.goldNames ==> n in g.gold && g.gold[n] == p.gold[n]
    ensures OneBatch(g, p.silverNames, p.goldNames, run)
  {
    forall n | n in p.silverNames ensures n in g.silver && g.silver[n] == p.silver[n] {
      var j :| 0 <= j < |p.silverNames| && p.silverNames[j] == n;
      StandsAt(f.silver, p.silver, p.silverNames, g.silver, |p.silverNames|, false, j);
    }
    forall n | n in p.goldNames ensures n in g.gold && g.gold[n] == p.gold[n] {
      var j :| 0 <= j < |p.goldNames| && p.goldNames[j] == n;
      StandsAt(f.gold, p.gold, p.goldNames, g.gold, |p.goldNames|, false, j);
    }
  }

  // ---------------------------------------------------------------- sequences of runs

  /** One run as readers see it: its number, what it staged, whether it succeeded, and the final layers after it. */
  datatype Ran = Ran(run: nat, plan: Plan, ok: bool, after: Finals)

  /** The names both layers are expected to have. */
  datatype Expected = Expected(silver: seq<string>, gold: seq<string>)

  const EXPECTED := Expected(SILVER_NAMES, GOLD_NAMES)

  ghost predicate RanFrom(e: Expected, f: Finals, r: Ran) {
    && r.plan.silverNames == e.silver && r.plan.goldNames == e.gold && Stamped(r.plan, r.run)
    && Outcome(f, r.plan, r.after, r.ok)
  }

  ghost predicate History(e: Expected, f: Finals, runs: seq<Ran>)
    decreases |runs|
  {
    runs == [] || (RanFrom(e, f, runs[0]) && History(e, runs[0].after, runs[1..]))
  }

  predicate Increasing(next: nat, runs: seq<Ran>)
    decreases |runs|
  {
    runs == [] || (next <= runs[0].run && Increasing(runs[0].run + 1, runs[1..]))
  }

  function Last(f: Finals, runs: seq<Ran>): Finals { if runs == [] then f else runs[|runs| - 1].after }

  lemma PlanIsStamped(run: nat, inputs: Inputs)
    ensures Stamped(PlanOf(run, inputs), run)
  {
    PlanIsGood(run, inputs);
    NamesInjective();
    StampedStage(Schema.TABLES, NAME_OF, SilverMetaOf(run, inputs), run);
    StampedStage(GOLD_MODELS, GOLD_NAME_OF, GoldMetaOf(run, RowsOf(inputs.data), CountedOf(inputs.data)), run);
  }

  lemma StampedStage<K(!new)>(keys: seq<K>, name: K -> string, meta: K -> Meta, run: nat)
    requires InjectiveOn(keys, name) && forall k :: meta(k).batch == run
    ensures forall n :: n in Map(keys, name) ==>
              n in Staged(keys, name, meta, |keys|) && Staged(keys, name, meta, |keys|)[n].batch == run
  {
    forall n | n in Map(keys, name)
      ensures n in Staged(keys, name, meta, |keys|) && Staged(keys, name, meta, |keys|)[n].batch == run
    {
      var i :| 0 <= i < |keys| && Map(keys, name)[i] == n;
      StagedIs(keys, name, meta, |keys|, i);
    }
  }

  /** Every run of the job is such a run. */
  lemma RunIsRan(f: Finals, run: nat, inputs: Inputs, ok: bool, g: Finals)
    requires Outcome(f, PlanOf(run, inputs), g, ok)
    ensures RanFrom(EXPECTED, f, Ran(run, PlanOf(run, inputs), ok, g))
  {
    PlanIsStamped(run, inputs);
  }

  /** Over every sequence of runs, however they fail, Silver stays at or ahead of Gold. */
  lemma {:induction false} RunsKeep(e: Expected, f: Finals, next: nat, runs: seq<Ran>) returns (end: nat)
    requires Ordered(f, e.silver, e.gold, next) && History(e, f, runs) && Increasing(next, runs)
    ensures Ordered(Last(f, runs), e.silver, e.gold, end)
    decreases |runs|
  {
    end := next;
    if runs != [] {
      var r := runs[0];
      LaterRun(f, e, next, r.run);
      OutcomeKeeps(f, r.plan, r.after, r.ok, r.run);
      end := RunsKeep(e, r.after, r.run + 1, runs[1..]);
      assert Last(r.after, runs[1..]) == Last(f, runs);
    }
  }

  lemma LaterRun(f: Finals, e: Expected, next: nat, run: nat)
    requires Ordered(f, e.silver, e.gold, next) && next <= run
    ensures Ordered(f, e.silver, e.gold, run)
  {
  }

  function Failures(runs: seq<Ran>): nat {
    if runs == [] then 0 else (if runs[0].ok then 0 else 1) + Failures(runs[1..])
  }

  /** Each failed run adds at most one missing table. */
  lemma {:induction false} RunsMiss(e: Expected, f: Finals, runs: seq<Ran>)
    requires History(e, f, runs)
    ensures Missing(Last(f, runs), e.silver, e.gold) <= Missing(f, e.silver, e.gold) + Failures(runs)
    decreases |runs|
  {
    if runs != [] {
      var r := runs[0];
      OutcomeMisses(f, r.plan, r.after, r.ok, r.run);
      RunsMiss(e, r.after, runs[1..]);
      assert Last(r.after, runs[1..]) == Last(f, runs);
    }
  }

  lemma {:induction false} HistoryFrom(e: Expected, f: Finals, a: seq<Ran>, b: seq<Ran>)
    requires History(e, f, a + b)
    ensures History(e, Last(f, a), b)
    decreases |a|
  {
    if a == [] {
      assert a + b == b;
    } else {
      assert (a + b)[1..] == a[1..] + b;
      HistoryFrom(e, a[0].after, a[1..], b);
      assert Last(a[0].after, a[1..]) == Last(f, a);
    }
  }

  /**
   One successful run repairs whatever failed runs left behind: right after it every expected table is present with its
   batch, and later at most one is missing for each failed run since.
   */
  lemma Repaired(e: Expected, f: Finals, before: seq<Ran>, r: Ran, later: seq<Ran>)
    requires History(e, f, before + ([r] + later)) && r.ok
    ensures OneBatch(r.after, e.silver, e.gold, r.run)
    ensures Missing(Last(f, before + ([r] + later)), e.silver, e.gold) <= Failures(later)
  {
    HistoryFrom(e, f, before, [r] + later);
    assert ([r] + later)[1..] == later;
    OutcomeMisses(Last(f, before), r.plan, r.after, r.ok, r.run);
    RunsMiss(e, r.after, later);
    assert Last(r.after, later) == Last(f, before + ([r] + later));
  }

  // ---------------------------------------------------------------- the job, run after run

  /** One start of the job, with the fault it meets. */
  datatype Start = Start(run: nat, inputs: Inputs, healthy: Option<nat>, lost: bool)

  predicate RunsRise(next: nat, starts: seq<Start>) {
    && (forall i :: 0 <= i < |starts| ==> next <= starts[i].run)
    && forall i, j :: 0 <= i < j < |starts| ==> starts[i].run < starts[j].run
  }

  /** The history is that of these starts and their results. */
  ghost predicate Recorded(starts: seq<Start>, results: seq<Option<BatchError>>, runs: seq<Ran>) {
    && |starts| == |results| == |runs|
    && forall i :: 0 <= i < |runs| ==> runs[i].run == starts[i].run && runs[i].ok == results[i].None?
  }

  lemma NoHistory(e: Expected, f: Finals)
    ensures History(e, f, []) && Last(f, []) == f
  {
  }

  lemma {:induction false} HistoryAppends(e: Expected, f: Finals, runs: seq<Ran>, r: Ran)
    requires History(e, f, runs) && RanFrom(e, Last(f, runs), r)
    ensures History(e, f, runs + [r]) && Last(f, runs + [r]) == r.after
    decreases |runs|
  {
    hide RanFrom;
    if runs == [] {
      assert runs + [r] == [r];
      assert History(e, r.after, [r][1..]);
    } else {
      assert Last(runs[0].after, runs[1..]) == Last(f, runs);
      HistoryAppends(e, runs[0].after, runs[1..], r);
      assert (runs + [r])[1..] == runs[1..] + [r];
    }
  }

  lemma {:induction false} RisingRuns(next: nat, starts: seq<Start>, results: seq<Option<BatchError>>, runs: seq<Ran>)
    requires RunsRise(next, starts) && Recorded(starts, results, runs)
    ensures Increasing(next, runs)
    decreases |runs|
  {
    if runs != [] { RisingRuns(starts[0].run + 1, starts[1..], results[1..], runs[1..]); }
  }

  method StartOnce(c: IcebergCatalog, s: Start) returns (r: Option<BatchError>, ghost ran: Ran)
    requires StageSilver(s.run) !in c.spaces && StageGold(s.run) !in c.spaces
    modifies c
    ensures OthersKept(old(c.spaces), c.spaces, FinalSilver, FinalGold) && RanFrom(EXPECTED, FinalsOf(old(c.spaces)), ran)
    ensures ran.run == s.run && ran.ok == r.None? && ran.after == FinalsOf(c.spaces)
  {
    hide RanFrom, Outcome, PlanOf, LayersAfter, SilverBuilds, GoldBuilds, CallsOf;
    ghost var before := FinalsOf(c.spaces);
    r := Run(c, s.run, s.inputs, s.healthy, s.lost);
    ran := Ran(s.run, PlanOf(s.run, s.inputs), r.None?, FinalsOf(c.spaces));
    RunIsRan(before, s.run, s.inputs, r.None?, FinalsOf(c.spaces));
  }

  /** Since run `i` succeeded only failed runs can have opened a gap. */
  lemma SinceSuccess(e: Expected, f: Finals, runs: seq<Ran>, i: nat)
    requires History(e, f, runs) && i < |runs| && runs[i].ok
    ensures OneBatch(runs[i].after, e.silver, e.gold, runs[i].run)
    ensures Missing(Last(f, runs), e.silver, e.gold) <= Failures(runs[i + 1..])
  {
    hide RanFrom, OneBatch, Missing;
    assert runs == runs[..i] + ([runs[i]] + runs[i + 1..]);
    Repaired(e, f, runs[..i], runs[i], runs[i + 1..]);
  }

  /**
   The job started any number of times on one catalog, failing as it may. The staging namespaces of later runs stay free,
   Silver stays at or ahead of Gold, each failure adds at most one missing table to those there were, and since the last
   success there are no others.
   */
  method RunMany(c: IcebergCatalog, starts: seq<Start>, ghost next: nat)
    returns (results: seq<Option<BatchError>>, ghost runs: seq<Ran>, ghost end: nat)
    requires RunsRise(next, starts) && Ordered(FinalsOf(c.spaces), SILVER_NAMES, GOLD_NAMES, next)
    requires forall i :: 0 <= i < |starts| ==>
               StageSilver(starts[i].run) !in c.spaces && StageGold(starts[i].run) !in c.spaces
    modifies c
    ensures Recorded(starts, results, runs) && History(EXPECTED, FinalsOf(old(c.spaces)), runs)
    ensures Last(FinalsOf(old(c.spaces)), runs) == FinalsOf(c.spaces)
    ensures OthersKept(old(c.spaces), c.spaces, FinalSilver, FinalGold)
    ensures Ordered(FinalsOf(c.spaces), SILVER_NAMES, GOLD_NAMES, end)
    ensures Missing(FinalsOf(c.spaces), SILVER_NAMES, GOLD_NAMES) <=
            Missing(FinalsOf(old(c.spaces)), SILVER_NAMES, GOLD_NAMES) + Failures(runs)
    ensures forall i :: 0 <= i < |starts| && results[i].None? ==>
              OneBatch(runs[i].after, SILVER_NAMES, GOLD_NAMES, starts[i].run) &&
              Missing(FinalsOf(c.spaces), SILVER_NAMES, GOLD_NAMES) <= Failures(runs[i + 1..])
  {
    hide RanFrom, Ordered, OneBatch, Missing, History, Last, FinalsOf, Map, Failures;
    ghost var f := FinalsOf(c.spaces);
    results, runs := [], [];
    NoHistory(EXPECTED, f);
    for i := 0 to |starts|
      invariant Recorded(starts[..i], results, runs) && History(EXPECTED, f, runs) && Last(f, runs) == FinalsOf(c.spaces)
      invariant OthersKept(old(c.spaces), c.spaces, FinalSilver, FinalGold)
    {
      StagingFree(old(c.spaces), c.spaces, starts[i].run);
      var r;
      ghost var ran;
      r, ran := StartOnce(c, starts[i]);
      HistoryAppends(EXPECTED, f, runs, ran);
      results, runs := results + [r], runs + [ran];
    }
    assert starts[..|starts|] == starts;
    RisingRuns(next, starts, results, runs);
    end := RunsKeep(EXPECTED, f, next, runs);
    RunsMiss(EXPECTED, f, runs);
    forall i | 0 <= i < |starts| && results[i].None?
      ensures OneBatch(runs[i].after, SILVER_NAMES, GOLD_NAMES, starts[i].run)
      ensures Missing(FinalsOf(c.spaces), SILVER_NAMES, GOLD_NAMES) <= Failures(runs[i + 1..])
    {
      SinceSuccess(EXPECTED, f, runs, i);
    }
  }

  lemma StagingFree(before: Spaces, now: Spaces, run: nat)
    requires OthersKept(before, now, FinalSilver, FinalGold) && StageSilver(run) !in before && StageGold(run) !in before
    ensures StageSilver(run) !in now && StageGold(run) !in now
  {
    assert StageSilver(run) in now ==> StageSilver(run) in now - {FinalSilver, FinalGold};
    assert StageGold(run) in now ==> StageGold(run) in now - {FinalSilver, FinalGold};
  }
}

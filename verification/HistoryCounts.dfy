/** What the validator of the history asks of a completed generation, exactly: the item count and the byte window. */
module HistoryCounts {
  import opened Collections
  import opened Schema
  import opened History
  import opened HistoryRuns

  // ---------------------------------------------------------------- what a completed run adds to each table

  /** The goal of a table depends on the tables before it only. */
  lemma GoalFromEarlier(cfg: Config, a: Store, b: Store, i: nat)
    requires i < 10 == |a| == |b| && a[..i] == b[..i]
    ensures GoalOf(cfg, a, i) == GoalOf(cfg, b, i)
  {
    if i > 4 { assert a[..i][4] == b[..i][4]; }
  }

  /** A completed run adds to every table what one uninterrupted call for its final goal produces. */
  lemma {:induction false} CompletedTable(cfg: Config, store: Store, i: nat, budget: nat, k: nat)
    requires WellFormed(cfg) && i <= 10 == |store| && k < 10 && RunFrom(cfg, store, i, budget).complete
    ensures var after := RunFrom(cfg, store, i, budget).store;
            after[k] == store[k] +
                        if k < i then [] else Produced(cfg.size(TABLES[k]), GoalOf(cfg, after, k), Resumed(store[k]))
    ensures forall j :: 0 <= j < i ==> RunFrom(cfg, store, i, budget).store[j] == store[j]
    decreases 10 - i
  {
    if i < 10 {
      var ps := Missing(cfg, store, i);
      var next := store[i := store[i] + ps];
      var after := RunFrom(cfg, next, i + 1, budget - |ps|).store;
      CompletedTable(cfg, next, i + 1, budget - |ps|, k);
      assert after[..i] == store[..i];
      GoalFromEarlier(cfg, after, store, i);
    }
  }

  // ---------------------------------------------------------------- row counts the validator fixes

  /**
   A completed run leaves a table with a row target exactly at its final target if and only if the bucket it started from
   did not hold too many rows already and the shrink branch never fires with fewer than 1000 rows to go.
   */
  lemma CompletedRowsExactIff(cfg: Config, store: Store, budget: nat, k: nat)
    requires WellFormed(cfg) && |store| == 10 && k < 10 && RunFrom(cfg, store, 0, budget).complete
    requires GoalOf(cfg, RunFrom(cfg, store, 0, budget).store, k).targetRows.Some?
    ensures var after := RunFrom(cfg, store, 0, budget).store;
            var goal := GoalOf(cfg, after, k);
            SumRows(after[k]) == goal.targetRows.value <==>
            SumRows(store[k]) <= goal.targetRows.value &&
            !ShrinkRaises(cfg.size(TABLES[k]), goal, Resumed(store[k]))
  {
    hide RunFrom, Produced, ShrinkRaises, GoalOf;
    var after := RunFrom(cfg, store, 0, budget).store;
    var size, goal := cfg.size(TABLES[k]), GoalOf(cfg, after, k);
    CompletedTable(cfg, store, 0, budget, k);
    SumsConcat(store[k], Produced(size, goal, Resumed(store[k])));
    if SumRows(store[k]) <= goal.targetRows.value {
      RowModeBound(size, goal, Resumed(store[k]));
    }
  }

  /** The dimension tables, each with its fixed number of rows. */
  lemma CompletedDimensionsExactIff(cfg: Config, store: Store, budget: nat, t: Table)
    requires WellFormed(cfg) && |store| == 10 && !IsFact(t) && RunFrom(cfg, store, 0, budget).complete
    ensures var after := RunFrom(cfg, store, 0, budget).store;
            var k := Position(t);
            FixedRows(t).Some? &&
            (SumRows(after[k]) == FixedRows(t).value <==>
             SumRows(store[k]) <= FixedRows(t).value && !ShrinkRaises(cfg.size(t), GoalOf(cfg, after, k), Resumed(store[k])))
  {
    hide RunFrom, ShrinkRaises, Resumed, SumRows;
    CompletedRowsExactIff(cfg, store, budget, Position(t));
  }

  /** Two items per transaction: the item table, whose target is known only when the transactions are there. */
  lemma CompletedItemsExactIff(cfg: Config, store: Store, budget: nat)
    requires WellFormed(cfg) && |store| == 10 && RunFrom(cfg, store, 0, budget).complete
    ensures var after := RunFrom(cfg, store, 0, budget).store;
            var goal := GoalOf(cfg, after, 5);
            SumRows(after[5]) == 2 * SumRows(after[4]) <==>
            SumRows(store[5]) <= 2 * SumRows(after[4]) &&
            !ShrinkRaises(cfg.size(TransactionProducts), goal, Resumed(store[5]))
  {
    hide RunFrom, ShrinkRaises, Resumed, SumRows;
    CompletedRowsExactIff(cfg, store, budget, 5);
  }

  /**
   The ten markets, generated from nothing, become 1000 if and only if a file of ten rows is more than five percent over
   the half percent of the request that is set aside for them.
   */
  lemma MarketsExactIff(cfg: Config, budget: nat)
    requires WellFormed(cfg) && RunFrom(cfg, EMPTY, 0, budget).complete
    ensures var rows := SumRows(RunFrom(cfg, EMPTY, 0, budget).store[0]);
            var target := Trunc(cfg.requested as real * 0.005);
            rows == if Shrinks(target, cfg.size(Markets)(1, MARKET_COUNT)) then 1000 else MARKET_COUNT
  {
    hide RunFrom, Produced;
    var target := Trunc(cfg.requested as real * 0.005);
    FilledTable(cfg, budget, 0);
    OneFile(cfg.size(Markets), target, MARKET_COUNT);
  }

  /** A table of a few rows is one file: of just these rows, or of 1000 when the file turns out too large. */
  lemma OneFile(size: FileSize, target: int, rows: nat)
    requires Positive(size) && 0 < rows < 1000
    ensures SumRows(Produced(size, Goal(target, Some(rows)), Resumed([]))) ==
            if Shrinks(target, size(1, rows)) then 1000 else rows
  {
    hide Produced, SumRows, SumSize, ShrunkRows;
    var goal, g := Goal(target, Some(rows)), Gen(0, 0, 1, 0, None);
    assert Resumed([]) == g by { NothingYet(); }
    OneStep(size, goal, g);
    if Shrinks(target, size(1, rows)) { ShrinkEstimate(rows, target, size(1, rows)); }
    Finished(size, goal, Advance(g, NextPart(size, goal, g)));
  }

  lemma Finished(size: FileSize, goal: Goal, g: Gen)
    requires Positive(size) && Sane(g) && !Unfinished(goal, g)
    ensures SumRows(Produced(size, goal, g)) == 0
  {
  }

  /** Files of one byte a row. */
  const ROWS: FileSize := (start: nat, rows: nat) => rows

  function RowsFor(): Table -> FileSize { (t: Table) => ROWS }

  /** A request whose transactions end 470 rows past a whole thousand. */
  const SMALL := Config(5940, RowsFor())

  lemma SmallGoal(store: Store)
    requires |store| == 10
    ensures WellFormed(SMALL) && GoalOf(SMALL, store, 4) == Goal(1485, None)
    ensures GoalOf(SMALL, store, 5) == Goal(1485, Some(2 * SumRows(store[4])))
  {
    assert SMALL.requested as real * 0.25 == 1485.0;
  }

  lemma RowsWeigh()
    ensures Positive(ROWS) && forall start: nat, rows: nat :: ROWS(start, rows) == rows
  {
  }

  /** What a pass uploads that takes the shrink branch. */
  lemma ShrunkPart(size: FileSize, goal: Goal, g: Gen, rows: nat, kept: nat)
    requires Positive(size) && Sane(g) && Unfinished(goal, g) && rows == ProbeRows(goal, g) && size(g.start, rows) > 0
    requires Shrinks(goal.target - g.total, size(g.start, rows))
    requires kept == ShrunkRows(rows, goal.target - g.total, size(g.start, rows))
    ensures NextPart(size, goal, g) == Part(g.start, kept, size(g.start, kept))
  {
    hide Shrinks, ShrunkRows, ProbeRows, Positive;
  }

  lemma FirstProbe(rows: Option<int>)
    requires rows.Some? ==> rows.value >= 2470
    ensures ProbeRows(Goal(1485, rows), Gen(0, 0, 1, 0, None)) >= 2470
  {
  }

  lemma FirstStep(rows: Option<int>)
    requires rows.Some? ==> rows.value >= 2470
    ensures var g := Gen(0, 0, 1, 0, None);
            Positive(ROWS) && NextPart(ROWS, Goal(1485, rows), g) == Part(1, 1470, 1470)
  {
    RowsWeigh();
    FirstProbe(rows);
    hide ROWS, Positive, Shrinks, ShrunkRows, ProbeRows, NextPart;
    var goal, g := Goal(1485, rows), Gen(0, 0, 1, 0, None);
    FirstPart(ProbeRows(goal, g));
    ShrunkPart(ROWS, goal, g, ProbeRows(goal, g), 1470);
  }

  lemma FirstAdvance()
    ensures Advance(Gen(0, 0, 1, 0, None), Part(1, 1470, 1470)) == Gen(1470, 1470, 1471, 1, Some(1.0))
  {
  }

  lemma SecondStep(rows: Option<int>)
    requires rows.Some? ==> rows.value >= 2470
    ensures var g := Gen(1470, 1470, 1471, 1, Some(1.0));
            NextPart(ROWS, Goal(1485, rows), g) == Part(1471, 1000, 1000) &&
            Advance(g, Part(1471, 1000, 1000)) == Gen(2470, 2470, 2471, 2, Some(1.0))
  {
    hide Shrinks, ShrunkRows;
    assert ProbeRows(Goal(1485, rows), Gen(1470, 1470, 1471, 1, Some(1.0))) == 1000;
    SecondPart();
  }

  /** Of 1485 bytes the first part takes 1470 and the second, of the least 1000 rows, more than is left. */
  lemma TwoParts(rows: Option<int>)
    requires rows.Some? ==> rows.value >= 2470
    ensures var goal, g := Goal(1485, rows), Gen(2470, 2470, 2471, 2, Some(1.0));
            Positive(ROWS) && SumRows(Produced(ROWS, goal, Resumed([]))) == 2470 + SumRows(Produced(ROWS, goal, g))
  {
    hide Produced, SumRows, SumSize, NextPart, Advance;
    var goal := Goal(1485, rows);
    assert Resumed([]) == Gen(0, 0, 1, 0, None) by { NothingYet(); }
    FirstStep(rows);
    FirstAdvance();
    OneStep(ROWS, goal, Gen(0, 0, 1, 0, None));
    SecondStep(rows);
    OneStep(ROWS, goal, Gen(1470, 1470, 1471, 1, Some(1.0)));
  }

  lemma NothingYet()
    ensures Resumed([]) == Gen(0, 0, 1, 0, None)
  {
  }

  lemma FirstPart(rows: nat)
    requires rows >= 2470
    ensures Shrinks(1485, rows) && ShrunkRows(rows, 1485, rows) == 1470
  {
    assert (rows * 1485) as real == 1485.0 * rows as real;
    assert (rows * 1485) as real / rows as real == 1485.0;
  }

  lemma SecondPart()
    ensures Shrinks(15, 1000) && ShrunkRows(1000, 15, 1000) == 1000
  {
  }

  lemma NothingMore()
    ensures Positive(ROWS) && SumRows(Produced(ROWS, Goal(1485, None), Gen(2470, 2470, 2471, 2, Some(1.0)))) == 0
  {
  }

  lemma SmallCounts()
    ensures Positive(ROWS) && SumRows(Produced(ROWS, Goal(1485, None), Resumed([]))) == 2470
    ensures SumRows(Produced(ROWS, Goal(1485, Some(4940)), Resumed([]))) != 4940
  {
    hide Produced, SumRows, NextPart;
    TwoParts(None);
    NothingMore();
    TwoParts(Some(4940));
    RowModePastBudget(ROWS, Goal(1485, Some(4940)), Gen(2470, 2470, 2471, 2, Some(1.0)));
  }

  /** What a table holds that a completed run has filled from nothing. */
  lemma FilledTable(cfg: Config, budget: nat, k: nat)
    requires WellFormed(cfg) && k < 10 && RunFrom(cfg, EMPTY, 0, budget).complete
    ensures var after := RunFrom(cfg, EMPTY, 0, budget).store;
            after[k] == Produced(cfg.size(TABLES[k]), GoalOf(cfg, after, k), Resumed([]))
  {
    hide RunFrom, Produced;
    CompletedTable(cfg, EMPTY, 0, budget, k);
    assert EMPTY[k] == [];
  }

  /**
   A completed generation from an empty bucket that the validator rejects: 2470 transactions, whose items cannot be
   4940 because past the byte target every part holds 1000 rows.
   */
  lemma ItemCountMissed() returns (budget: nat)
    ensures WellFormed(SMALL)
    ensures var r := RunFrom(SMALL, EMPTY, 0, budget);
            r.complete && SumRows(r.store[4]) == 2470 && SumRows(r.store[5]) != 2 * SumRows(r.store[4])
  {
    hide RunFrom, Produced, GoalOf, Resumed;
    SmallGoal(EMPTY);
    budget := EnoughBudgetCompletes(SMALL, EMPTY, 0);
    var after := RunFrom(SMALL, EMPTY, 0, budget).store;
    SmallGoal(after);
    FilledTable(SMALL, budget, 4);
    FilledTable(SMALL, budget, 5);
    SmallCounts();
  }

  // ---------------------------------------------------------------- the byte window

  /** The last table, once begun, keeps the whole history within a twentieth of a file above the request. */
  ghost predicate LastBounded(cfg: Config, store: Store) {
    |store| == 10 && (store[9] != [] ==> Bytes(store) as real <= cfg.requested as real + FILE_TARGET_BYTES as real / 20.0)
  }

  lemma LastGrows(cfg: Config, store: Store, n: nat, lo: real, hi: real)
    requires WellFormed(cfg) && NearLinear(cfg.size(Predictions), lo, hi) && LastBounded(cfg, store)
    requires n <= |Missing(cfg, store, 9)|
    ensures LastBounded(cfg, store[9 := store[9] + Missing(cfg, store, 9)[..n]])
  {
    var ps := Missing(cfg, store, 9);
    var after := store[9 := store[9] + ps[..n]];
    assert after[..9] == store[..9];
    SumsConcat(store[9], ps[..n]);
    SumsMonotone(ps, n);
    if ps != [] {
      ByteModeBound(cfg.size(Predictions), GoalOf(cfg, store, 9), Resumed(store[9]), lo, hi);
    } else {
      assert store[9] + ps[..n] == store[9];
    }
  }

  /** Before the last table is begun it is empty, and from then on no other table grows. */
  lemma EarlierGrows(cfg: Config, store: Store, i: nat, n: nat)
    requires WellFormed(cfg) && Inv(cfg, store) && LastBounded(cfg, store) && i < 9 && n <= |Missing(cfg, store, i)|
    ensures LastBounded(cfg, store[i := store[i] + Missing(cfg, store, i)[..n]])
  {
    var ps := Missing(cfg, store, i);
    if ps == [] {
      assert store[i] + ps[..n] == store[i];
      assert store[i := store[i]] == store;
    } else {
      assert !Met(cfg, store, i);
      assert store[9] == [];
    }
  }

  lemma {:induction false} RunBounded(cfg: Config, store: Store, i: nat, budget: nat, lo: real, hi: real)
    requires WellFormed(cfg) && NearLinear(cfg.size(Predictions), lo, hi) && LastBounded(cfg, store)
    requires Inv(cfg, store) && i <= 10 && forall k :: 0 <= k < i ==> Met(cfg, store, k)
    ensures LastBounded(cfg, RunFrom(cfg, store, i, budget).store)
    decreases 10 - i
  {
    hide Inv, NearLinear, Met, Bytes, Missing;
    if i < 10 {
      var ps := Missing(cfg, store, i);
      var n := Min(budget, |ps|);
      var after := store[i := store[i] + ps[..n]];
      AppendKeeps(cfg, store, i, n, after);
      if i == 9 {
        LastGrows(cfg, store, n, lo, hi);
      } else {
        EarlierGrows(cfg, store, i, n);
      }
      if budget >= |ps| {
        assert ps[..|ps|] == ps;
        MissingMeets(cfg, store, i);
        RunBounded(cfg, after, i + 1, budget - |ps|, lo, hi);
      }
    }
  }

  lemma {:induction false} RunsBounded(cfg: Config, store: Store, budgets: seq<nat>, lo: real, hi: real)
    requires WellFormed(cfg) && NearLinear(cfg.size(Predictions), lo, hi) && LastBounded(cfg, store) && Inv(cfg, store)
    ensures LastBounded(cfg, Runs(cfg, store, budgets))
    decreases |budgets|
  {
    if budgets != [] {
      RunKeeps(cfg, store, 0, budgets[0]);
      RunBounded(cfg, store, 0, budgets[0], lo, hi);
      RunsBounded(cfg, RunFrom(cfg, store, 0, budgets[0]).store, budgets[1..], lo, hi);
    }
  }

  /**
   For a request of at least one file target, a completed generation lies in the byte window of the validator if and
   only if the tables before the last weigh at most five percent more than the request.
   */
  lemma ByteWindowIff(cfg: Config, budgets: seq<nat>, budget: nat, lo: real, hi: real)
    requires WellFormed(cfg) && NearLinear(cfg.size(Predictions), lo, hi) && cfg.requested >= FILE_TARGET_BYTES
    requires RunFrom(cfg, Runs(cfg, EMPTY, budgets), 0, budget).complete
    ensures var after := RunFrom(cfg, Runs(cfg, EMPTY, budgets), 0, budget).store;
            (cfg.requested <= Bytes(after) && Bytes(after) as real <= cfg.requested as real * 1.05
             <==> Bytes(after[..9]) as real <= cfg.requested as real * 1.05)
  {
    hide Inv, RunFrom, Met, NearLinear;
    var store := Runs(cfg, EMPTY, budgets);
    EmptyInv(cfg);
    ResumeCorrect(cfg, EMPTY, budgets);
    RunsBounded(cfg, EMPTY, budgets, lo, hi);
    RunKeeps(cfg, store, 0, budget);
    RunBounded(cfg, store, 0, budget, lo, hi);
    var after := RunFrom(cfg, store, 0, budget).store;
    assert Met(cfg, after, 9);
    LastMetBudget(cfg, after);
    assert after[..|after| - 1] == after[..9];
  }
}

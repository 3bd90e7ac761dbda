/** Whole generation runs: crash at any upload, resume from object metadata, finish with a manifest. */
module HistoryRuns {
  import opened Collections
  import opened Schema
  import opened History

  /** The requested bytes and, per table, what its Parquet files weigh. */
  datatype Config = Config(requested: int, size: Table -> FileSize)

  /** The parts of each table, by table position and part number. */
  type Store = seq<seq<Part>>

  const EMPTY: Store := [[], [], [], [], [], [], [], [], [], []]

  ghost predicate WellFormed(cfg: Config) { forall t: Table :: Positive(cfg.size(t)) }

  function Weight(t: Table): real {
    match t
    case Markets => 0.005
    case Vendors => 0.02
    case Buyers => 0.02
    case Products => 0.08
    case Transactions => 0.25
    case TransactionProducts => 0.25
    case Sessions => 0.12
    case Payments => 0.12
    case Risk => 0.055
    case Predictions => 0.08
  }

  function FixedRows(t: Table): Option<int> {
    match t
    case Markets => Some(MARKET_COUNT)
    case Vendors => Some(VENDOR_COUNT)
    case Buyers => Some(BUYER_COUNT)
    case Products => Some(PRODUCT_COUNT)
    case _ => None
  }

  function Bytes(store: Store): nat {
    if store == [] then 0 else Bytes(store[..|store| - 1]) + SumSize(store[|store| - 1])
  }

  /** The goal of table `i`: the last one absorbs what the others left of the budget. */
  function GoalOf(cfg: Config, store: Store, i: nat): Goal
    requires i < 10 == |store|
  {
    var target := if i == 9 then cfg.requested - Bytes(store[..9]) else Trunc(cfg.requested as real * Weight(TABLES[i]));
    var rows := if TABLES[i].TransactionProducts? then Some(2 * SumRows(store[4])) else FixedRows(TABLES[i]);
    Goal(target, rows)
  }

  /** The uploads table `i` still needs. */
  function Missing(cfg: Config, store: Store, i: nat): seq<Part>
    requires WellFormed(cfg) && i < 10 == |store|
  {
    Produced(cfg.size(TABLES[i]), GoalOf(cfg, store, i), Resumed(store[i]))
  }

  predicate Met(cfg: Config, store: Store, i: nat)
    requires i < 10 == |store|
  {
    !Unfinished(GoalOf(cfg, store, i), Resumed(store[i]))
  }

  datatype Outcome = Outcome(store: Store, complete: bool)

  /** A run over the tables from `i` on that is killed after `budget` uploads. */
  function RunFrom(cfg: Config, store: Store, i: nat, budget: nat): (r: Outcome)
    requires WellFormed(cfg) && i <= 10 == |store|
    ensures |r.store| == 10
    decreases 10 - i
  {
    if i == 10 then Outcome(store, true)
    else
      var ps := Missing(cfg, store, i);
      if budget < |ps| then Outcome(store[i := store[i] + ps[..budget]], false)
      else RunFrom(cfg, store[i := store[i] + ps], i + 1, budget - |ps|)
  }

  /** Any number of runs, each killed after so many uploads. */
  function Runs(cfg: Config, store: Store, budgets: seq<nat>): (r: Store)
    requires WellFormed(cfg) && |store| == 10
    ensures |r| == 10
    decreases |budgets|
  {
    if budgets == [] then store
    else Runs(cfg, RunFrom(cfg, store, 0, budgets[0]).store, budgets[1..])
  }

  // ---------------------------------------------------------------- the invariant of a bucket mid-generation

  /** A table with a row target never holds more than 999 rows above it. */
  predicate WithinRows(cfg: Config, store: Store, i: nat)
    requires i < 10 == |store|
  {
    var rows := GoalOf(cfg, store, i).targetRows;
    rows.Some? && store[i] != [] ==> SumRows(store[i]) <= rows.value + 999
  }

  predicate Inv(cfg: Config, store: Store) {
    && |store| == 10
    && (forall i :: 0 <= i < 10 ==> Tiled(store[i]))
    && (forall i :: 0 <= i < 10 ==> WithinRows(cfg, store, i))
    && (forall i, j {:trigger Met(cfg, store, i), store[j]} :: 0 <= i < j < 10 && store[j] != [] ==> Met(cfg, store, i))
  }

  /** Nothing stored is changed or removed; parts are only appended. */
  predicate Extends(before: Store, after: Store) {
    |before| == |after| && forall i :: 0 <= i < |before| ==> before[i] <= after[i]
  }

  lemma EarlierGoals(cfg: Config, store: Store, i: nat, ps: seq<Part>, k: nat)
    requires k <= i < 10 == |store|
    ensures GoalOf(cfg, store[i := ps], k) == GoalOf(cfg, store, k)
  {
    if k == 9 {
      assert store[i := ps][..9] == store[..9];
    }
  }

  lemma EarlierMet(cfg: Config, store: Store, i: nat, ps: seq<Part>, k: nat)
    requires k < i < 10 == |store|
    ensures Met(cfg, store[i := ps], k) == Met(cfg, store, k)
  {
    EarlierGoals(cfg, store, i, ps, k);
  }

  lemma AppendWithin(cfg: Config, store: Store, i: nat, n: nat, after: Store)
    requires WellFormed(cfg) && Inv(cfg, store) && i < 10 && n <= |Missing(cfg, store, i)|
    requires after == store[i := store[i] + Missing(cfg, store, i)[..n]]
    ensures WithinRows(cfg, after, i)
  {
    var ps := Missing(cfg, store, i);
    var goal := GoalOf(cfg, store, i);
    EarlierGoals(cfg, store, i, store[i] + ps[..n], i);
    assert WithinRows(cfg, store, i);
    if goal.targetRows.Some? {
      if SumRows(store[i]) <= goal.targetRows.value {
        RowModeBound(cfg.size(TABLES[i]), goal, Resumed(store[i]));
        SumsMonotone(ps, n);
        SumsConcat(store[i], ps[..n]);
      } else {
        assert ps == [] && store[i] + ps[..n] == store[i];
      }
    }
  }

  lemma AppendKeeps(cfg: Config, store: Store, i: nat, n: nat, after: Store)
    requires WellFormed(cfg) && Inv(cfg, store) && i < 10 && n <= |Missing(cfg, store, i)|
    requires forall k :: 0 <= k < i ==> Met(cfg, store, k)
    requires after == store[i := store[i] + Missing(cfg, store, i)[..n]]
    ensures Inv(cfg, after) && forall k :: 0 <= k < i ==> Met(cfg, after, k)
  {
    var ps := store[i] + Missing(cfg, store, i)[..n];
    ProducedTiles(cfg.size(TABLES[i]), GoalOf(cfg, store, i), store[i], Resumed(store[i]), n);
    forall k | 0 <= k < i ensures Met(cfg, after, k) {
      EarlierMet(cfg, store, i, ps, k);
    }
    forall k | 0 <= k < 10 ensures WithinRows(cfg, after, k) {
      if k < i {
        EarlierGoals(cfg, store, i, ps, k);
        assert WithinRows(cfg, store, k);
      } else if k == i {
        AppendWithin(cfg, store, i, n, after);
      } else if after[k] != [] {
        assert store[k] == after[k] && Met(cfg, store, i);
        assert Missing(cfg, store, i) == [] && ps == store[i] && after == store;
        assert WithinRows(cfg, store, k);
      }
    }
    forall k, j | 0 <= k < j < 10 && after[j] != [] ensures Met(cfg, after, k) {
      if k >= i {
        assert store[j] == after[j] && Met(cfg, store, i) && Met(cfg, store, k);
        assert Missing(cfg, store, i) == [] && ps == store[i];
        assert after == store;
      }
    }
  }

  lemma MissingMeets(cfg: Config, store: Store, i: nat)
    requires WellFormed(cfg) && i < 10 == |store|
    ensures Met(cfg, store[i := store[i] + Missing(cfg, store, i)], i)
  {
    var ps := Missing(cfg, store, i);
    ProducedFinishes(cfg.size(TABLES[i]), GoalOf(cfg, store, i), Resumed(store[i]));
    SumsConcat(store[i], ps);
    EarlierGoals(cfg, store, i, store[i] + ps, i);
  }

  lemma {:induction false} RunKeeps(cfg: Config, store: Store, i: nat, budget: nat)
    requires WellFormed(cfg) && Inv(cfg, store) && i <= 10
    requires forall k :: 0 <= k < i ==> Met(cfg, store, k)
    ensures var r := RunFrom(cfg, store, i, budget);
            Inv(cfg, r.store) && Extends(store, r.store) &&
            (r.complete ==> forall k :: 0 <= k < 10 ==> Met(cfg, r.store, k))
    decreases 10 - i
  {
    if i < 10 {
      var ps := Missing(cfg, store, i);
      if budget < |ps| {
        AppendKeeps(cfg, store, i, budget, store[i := store[i] + ps[..budget]]);
      } else {
        assert ps[..|ps|] == ps;
        AppendKeeps(cfg, store, i, |ps|, store[i := store[i] + ps]);
        MissingMeets(cfg, store, i);
        RunKeeps(cfg, store[i := store[i] + ps], i + 1, budget - |ps|);
      }
    }
  }

  lemma EmptyInv(cfg: Config)
    ensures Inv(cfg, EMPTY)
  {
  }

  /**
   After any sequence of crashed runs the parts of every table tile their rows from 1 without gap or overlap, no run
   has changed what an earlier one stored, and a table has parts only if every earlier table met its goal.
   */
  lemma {:induction false} ResumeCorrect(cfg: Config, store: Store, budgets: seq<nat>)
    requires WellFormed(cfg) && Inv(cfg, store)
    ensures Inv(cfg, Runs(cfg, store, budgets)) && Extends(store, Runs(cfg, store, budgets))
    decreases |budgets|
  {
    if budgets != [] {
      RunKeeps(cfg, store, 0, budgets[0]);
      ResumeCorrect(cfg, RunFrom(cfg, store, 0, budgets[0]).store, budgets[1..]);
    }
  }

  lemma {:induction false} AllMetNothingMissing(cfg: Config, store: Store, i: nat, budget: nat)
    requires WellFormed(cfg) && |store| == 10 && i <= 10
    requires forall k :: 0 <= k < 10 ==> Met(cfg, store, k)
    ensures RunFrom(cfg, store, i, budget) == Outcome(store, true)
    decreases 10 - i
  {
    if i < 10 {
      assert Met(cfg, store, i);
      assert Missing(cfg, store, i) == [];
      assert store[i] + [] == store[i] && store[i := store[i]] == store;
      AllMetNothingMissing(cfg, store, i + 1, budget);
    }
  }

  /** The item table of a completed run: at least two rows per transaction, and fewer than a thousand more. */
  lemma CompletedItemCount(cfg: Config, budgets: seq<nat>, budget: nat)
    requires WellFormed(cfg)
    ensures var r := RunFrom(cfg, Runs(cfg, EMPTY, budgets), 0, budget);
            r.complete ==> 2 * SumRows(r.store[4]) <= SumRows(r.store[5]) <= 2 * SumRows(r.store[4]) + 999
  {
    EmptyInv(cfg);
    ResumeCorrect(cfg, EMPTY, budgets);
    var store := Runs(cfg, EMPTY, budgets);
    RunKeeps(cfg, store, 0, budget);
    var r := RunFrom(cfg, store, 0, budget);
    if r.complete {
      assert Met(cfg, r.store, 5) && WithinRows(cfg, r.store, 5);
    }
  }

  lemma LastMetBudget(cfg: Config, store: Store)
    requires |store| == 10 && Met(cfg, store, 9)
    ensures Bytes(store) >= cfg.requested
  {
  }

  /**
   A completed generation meets its byte budget, even when the last table's target is not positive, and running it
   again uploads nothing: with no upload allowed at all it completes on the same store.
   */
  lemma CompletedIsFixedPoint(cfg: Config, budgets: seq<nat>, budget: nat, again: nat)
    requires WellFormed(cfg)
    ensures var r := RunFrom(cfg, Runs(cfg, EMPTY, budgets), 0, budget);
            r.complete ==> Bytes(r.store) >= cfg.requested && RunFrom(cfg, r.store, 0, again) == Outcome(r.store, true)
  {
    EmptyInv(cfg);
    ResumeCorrect(cfg, EMPTY, budgets);
    var store := Runs(cfg, EMPTY, budgets);
    RunKeeps(cfg, store, 0, budget);
    var r := RunFrom(cfg, store, 0, budget);
    if r.complete {
      LastMetBudget(cfg, r.store);
      AllMetNothingMissing(cfg, r.store, 0, again);
    }
  }

  /** Killed or not, a run with enough uploads left completes; so resuming often enough always finishes. */
  lemma {:induction false} EnoughBudgetCompletes(cfg: Config, store: Store, i: nat) returns (budget: nat)
    requires WellFormed(cfg) && i <= 10 == |store|
    ensures RunFrom(cfg, store, i, budget).complete
    decreases 10 - i
  {
    if i == 10 {
      budget := 0;
    } else {
      var ps := Missing(cfg, store, i);
      var rest := EnoughBudgetCompletes(cfg, store[i := store[i] + ps], i + 1);
      budget := |ps| + rest;
    }
  }

  /**
   The last table absorbs the budget: while the request is not met, a run of it with near-proportional files ends within
   a twentieth of a file target above the request; once it is met nothing is added.
   */
  lemma LastTableLandsInWindow(cfg: Config, store: Store, lo: real, hi: real)
    requires WellFormed(cfg) && |store| == 10 && NearLinear(cfg.size(Predictions), lo, hi)
    ensures var after := store[9 := store[9] + Missing(cfg, store, 9)];
            if Bytes(store) >= cfg.requested then after == store
            else
              cfg.requested <= Bytes(after) &&
              Bytes(after) as real <= cfg.requested as real + FILE_TARGET_BYTES as real / 20.0 &&
              (cfg.requested >= FILE_TARGET_BYTES ==> Bytes(after) as real <= cfg.requested as real * 1.05)
  {
    var ps := Missing(cfg, store, 9);
    var after := store[9 := store[9] + ps];
    assert after[..9] == store[..9];
    SumsConcat(store[9], ps);
    if Bytes(store) < cfg.requested {
      ByteModeBound(cfg.size(Predictions), GoalOf(cfg, store, 9), Resumed(store[9]), lo, hi);
    } else {
      assert ps == [] && store[9] + [] == store[9];
    }
  }
}

/** `history.py` as it runs: the listing of what exists, the part loop, and the loop over the tables. */
module HistoryJob {
  import opened Collections
  import opened Schema
  import opened History
  import opened HistoryRuns

  /** One listed object under the bronze prefix, with the metadata its head request returns. */
  datatype Item = Item(table: string, parquet: bool, size: nat, rowStart: Option<nat>, rowCount: Option<nat>)

  datatype HistoryError = NoRowMetadata | UnknownTable | Killed

  datatype Key = Key(table: Table, number: nat)

  datatype Manifest = Manifest(tables: seq<nat>, rows: seq<nat>, totalBytes: nat, requested: int)

  predicate Readable(i: Item) { i.parquet ==> i.rowStart.Some? && i.rowCount.Some? }

  /** What one listed object contributes to a table. */
  function PartsOf(i: Item, table: string): seq<Part> {
    if i.parquet && i.table == table && Readable(i) then [Part(i.rowStart.value, i.rowCount.value, i.size)] else []
  }

  /** The parts a listing holds for one table, in listing order. */
  function PartsIn(listing: seq<Item>, table: string): seq<Part> {
    if listing == [] then []
    else PartsIn(listing[..|listing| - 1], table) + PartsOf(listing[|listing| - 1], table)
  }

  function At(parts: map<string, seq<Part>>, table: string): seq<Part> { if table in parts then parts[table] else [] }

  /** The dictionary groups exactly the listed parts by table. */
  ghost predicate Gathered(parts: map<string, seq<Part>>, listing: seq<Item>) {
    && (forall t :: At(parts, t) == PartsIn(listing, t))
    && (forall t :: t in parts ==> parts[t] != [])
  }

  lemma PartsInStep(listing: seq<Item>, n: nat, table: string)
    requires n < |listing|
    ensures PartsIn(listing[..n + 1], table) == PartsIn(listing[..n], table) + PartsOf(listing[n], table)
  {
    assert listing[..n + 1][..n] == listing[..n];
  }

  /** `result[table].append(part)` */
  function Add(parts: map<string, seq<Part>>, i: Item): map<string, seq<Part>> {
    if PartsOf(i, i.table) == [] then parts else parts[i.table := At(parts, i.table) + PartsOf(i, i.table)]
  }

  lemma AddAt(parts: map<string, seq<Part>>, i: Item, t: string)
    ensures At(Add(parts, i), t) == At(parts, t) + PartsOf(i, t)
  {
  }

  lemma GatherStep(parts: map<string, seq<Part>>, listing: seq<Item>, n: nat)
    requires n < |listing| && Gathered(parts, listing[..n])
    ensures Gathered(Add(parts, listing[n]), listing[..n + 1])
  {
    forall t ensures At(Add(parts, listing[n]), t) == PartsIn(listing[..n + 1], t) {
      PartsInStep(listing, n, t);
      AddAt(parts, listing[n], t);
    }
  }

  /** `existing_parts`: a Parquet object without row metadata stops the run before anything is written. */
  method ExistingParts(listing: seq<Item>) returns (r: Result<map<string, seq<Part>>, HistoryError>)
    ensures r.Failure? <==> exists i :: i in listing && !Readable(i)
    ensures r.Failure? ==> r.error == NoRowMetadata
    ensures r.Success? ==> Gathered(r.value, listing)
  {
    var result: map<string, seq<Part>> := map[];
    assert forall t :: At(result, t) == PartsIn(listing[..0], t);
    for n := 0 to |listing|
      invariant forall i :: 0 <= i < n ==> Readable(listing[i])
      invariant Gathered(result, listing[..n])
    {
      var item := listing[n];
      if item.parquet && (item.rowStart.None? || item.rowCount.None?) {
        assert listing[n] in listing && !Readable(listing[n]);
        return Failure(NoRowMetadata);
      }
      GatherStep(result, listing, n);
      if !item.parquet { continue; }
      result := Add(result, item);
    }
    assert listing[..|listing|] == listing;
    r := Success(result);
  }

  // ---------------------------------------------------------------- listing order does not matter

  /** `max(start + count)` over the parts, 1 when there are none. */
  function NextStart(parts: seq<Part>): nat {
    if parts == [] then 1
    else
      var last := parts[|parts| - 1];
      if |parts| == 1 then last.rowStart + last.rowCount
      else Max(NextStart(parts[..|parts| - 1]), last.rowStart + last.rowCount)
  }

  lemma {:induction false} SumsRemove(ps: seq<Part>, k: nat)
    requires k < |ps|
    ensures SumSize(ps) == SumSize(ps[..k] + ps[k + 1..]) + ps[k].size
    ensures SumRows(ps) == SumRows(ps[..k] + ps[k + 1..]) + ps[k].rowCount
    ensures multiset(ps[..k] + ps[k + 1..]) == multiset(ps) - multiset{ps[k]}
  {
    assert ps == ps[..k] + ([ps[k]] + ps[k + 1..]);
    SumsConcat(ps[..k], [ps[k]] + ps[k + 1..]);
    SumsConcat([ps[k]], ps[k + 1..]);
    SumsOne(ps[k]);
    SumsConcat(ps[..k], ps[k + 1..]);
    assert multiset(ps) == multiset(ps[..k]) + multiset{ps[k]} + multiset(ps[k + 1..]);
  }

  lemma {:induction false} SumsPermute(a: seq<Part>, b: seq<Part>)
    requires multiset(a) == multiset(b)
    ensures |a| == |b| && SumSize(a) == SumSize(b) && SumRows(a) == SumRows(b)
  {
    if a == [] {
      assert |b| == |multiset(b)| == |multiset(a)| == 0;
    } else {
      var n := |a| - 1;
      assert a[n] in multiset(b);
      var k :| 0 <= k < |b| && b[k] == a[n];
      SumsRemove(a, n);
      assert a[..n] + a[n + 1..] == a[..n];
      SumsRemove(b, k);
      SumsPermute(a[..n], b[..k] + b[k + 1..]);
    }
  }

  lemma {:induction false} NextStartIsMax(ps: seq<Part>)
    requires ps != []
    ensures forall p :: p in ps ==> p.rowStart + p.rowCount <= NextStart(ps)
    ensures exists p :: p in ps && p.rowStart + p.rowCount == NextStart(ps)
  {
    var n := |ps| - 1;
    assert ps == ps[..n] + [ps[n]];
    assert ps[n] in ps;
    if n > 0 {
      NextStartIsMax(ps[..n]);
      var p :| p in ps[..n] && p.rowStart + p.rowCount == NextStart(ps[..n]);
      assert p in ps;
    }
  }

  /** Whatever order the store lists them in, the parts of a tiled table resume where the tiling ends. */
  lemma ListingResumes(listed: seq<Part>, ps: seq<Part>)
    requires Tiled(ps) && multiset(listed) == multiset(ps)
    ensures Gen(SumSize(listed), SumRows(listed), NextStart(listed), |listed|, None) == Resumed(ps)
  {
    SumsPermute(listed, ps);
    if ps != [] {
      var last := ps[|ps| - 1];
      NextStartIsMax(listed);
      assert last in multiset(ps) && last in multiset(listed);
      var top :| top in listed && top.rowStart + top.rowCount == NextStart(listed);
      assert top in multiset(listed) && top in multiset(ps);
      var k :| 0 <= k < |ps| && ps[k] == top;
      EndsWithin(ps, k);
    }
  }

  /** In a tiling no part reaches past the last one, which ends at the row after the total. */
  lemma EndsWithin(ps: seq<Part>, k: nat)
    requires Tiled(ps) && k < |ps|
    ensures ps[k].rowStart + ps[k].rowCount <= 1 + SumRows(ps)
    ensures ps[|ps| - 1].rowStart + ps[|ps| - 1].rowCount == 1 + SumRows(ps)
  {
    hide Tiled, SumRows;
    var n := |ps| - 1;
    LastTileEnds(ps);
    if k < n { TilesDisjoint(ps, k, n); }
  }

  lemma LastTileEnds(ps: seq<Part>)
    requires Tiled(ps) && ps != []
    ensures ps[|ps| - 1].rowStart + ps[|ps| - 1].rowCount == 1 + SumRows(ps)
  {
    var n := |ps| - 1;
    assert ps[n].rowStart == 1 + SumRows(ps[..n]);
  }

  // ---------------------------------------------------------------- the job

  /** What one more upload means for a run of `all` that has done `n` of them on top of `ps`. */
  lemma ProducedStep(size: FileSize, goal: Goal, g: Gen, all: seq<Part>, n: nat, ps: seq<Part>)
    requires Positive(size) && Sane(g) && Unfinished(goal, g) && n <= |all| && Produced(size, goal, g) == all[n..]
    requires Matches(g, ps + all[..n])
    ensures var p := NextPart(size, goal, g);
            && n < |all| && all[n] == p && Produced(size, goal, Advance(g, p)) == all[n + 1..]
            && ps + all[..n + 1] == (ps + all[..n]) + [p]
            && Matches(Advance(g, p), ps + all[..n + 1])
  {
    var p := NextPart(size, goal, g);
    assert all[n..][0] == p && all[n..][1..] == all[n + 1..];
    assert ps + all[..n + 1] == (ps + all[..n]) + [p];
    SumsConcat(ps + all[..n], [p]);
    SumsOne(p);
  }

  lemma RunFromStep(cfg: Config, before: Store, store: Store, i: nat, left: nat, after: Store)
    requires WellFormed(cfg) && i < 10 == |store| && Extends(before, store)
    requires var ps := Missing(cfg, store, i); after == store[i := store[i] + ps[..Min(left, |ps|)]]
    ensures |after| == 10 && Extends(before, after)
    ensures var ps := Missing(cfg, store, i);
            RunFrom(cfg, store, i, left) ==
            if left < |ps| then Outcome(after, false) else RunFrom(cfg, after, i + 1, left - |ps|)
  {
    var ps := Missing(cfg, store, i);
    assert left >= |ps| ==> ps[..|ps|] == ps;
  }

  function Listed(parts: map<string, seq<Part>>, t: Table): seq<Part> { At(parts, Name(t)) }

  /** What a turn of `n` uploads keeps, and what it completes when those are all of them. */
  lemma TurnKeeps(cfg: Config, store: Store, i: nat, n: nat, after: Store)
    requires WellFormed(cfg) && Inv(cfg, store) && i < 10 && n <= |Missing(cfg, store, i)|
    requires forall k :: 0 <= k < i ==> Met(cfg, store, k)
    requires after == store[i := store[i] + Missing(cfg, store, i)[..n]]
    ensures Inv(cfg, after)
    ensures n == |Missing(cfg, store, i)| ==>
              after == store[i := store[i] + Missing(cfg, store, i)] && forall k :: 0 <= k <= i ==> Met(cfg, after, k)
  {
    AppendKeeps(cfg, store, i, n, after);
    if n == |Missing(cfg, store, i)| {
      assert Missing(cfg, store, i)[..n] == Missing(cfg, store, i);
      MissingMeets(cfg, store, i);
    }
  }

  /** The target and target rows `main` works out from its running totals. */
  function PlannedGoal(cfg: Config, i: nat, totals: seq<nat>, rows: seq<nat>): Goal
    requires i < 10 && |rows| == i
  {
    Goal(if i == 9 then cfg.requested - Total(totals) else Trunc(cfg.requested as real * Weight(TABLES[i])),
         if TABLES[i].TransactionProducts? then Some(2 * rows[4]) else FixedRows(TABLES[i]))
  }

  lemma PlannedGoalIsGoal(cfg: Config, store: Store, i: nat, totals: seq<nat>, rows: seq<nat>)
    requires i < 10 == |store| && |totals| == |rows| == i
    requires forall k :: 0 <= k < i ==> totals[k] == SumSize(store[k]) && rows[k] == SumRows(store[k])
    ensures PlannedGoal(cfg, i, totals, rows) == GoalOf(cfg, store, i)
  {
    if i == 9 { TotalBytes(totals, store[..9]); }
    if TABLES[i].TransactionProducts? { TablesDiffer(i, 5); }
  }

  /** Part numbers are dense from 0 in every table, and each object holds the part its number says. */
  ghost predicate Represents(objects: map<Key, Part>, store: Store) {
    && |store| == 10
    && (forall i, n: nat {:trigger Key(TABLES[i], n)} :: 0 <= i < 10 ==>
          (Key(TABLES[i], n) in objects <==> n < |store[i]|) &&
          (n < |store[i]| ==> objects[Key(TABLES[i], n)] == store[i][n]))
  }

  function Position(t: Table): (i: nat)
    ensures i < 10 && TABLES[i] == t
  {
    match t
    case Markets => 0
    case Vendors => 1
    case Buyers => 2
    case Products => 3
    case Transactions => 4
    case TransactionProducts => 5
    case Sessions => 6
    case Payments => 7
    case Risk => 8
    case Predictions => 9
  }

  lemma TablesDiffer(i: nat, j: nat)
    requires i < 10 && j < 10 && TABLES[i] == TABLES[j]
    ensures i == j
  {
    assert Position(TABLES[i]) == i && Position(TABLES[j]) == j;
  }

  /** Since part numbers are only ever appended, every object of an earlier store is still there, unchanged. */
  lemma ObjectsKept(before: map<Key, Part>, was: Store, after: map<Key, Part>, now: Store)
    requires Represents(before, was) && Represents(after, now) && Extends(was, now)
    ensures forall k :: k in before ==> k in after && after[k] == before[k]
  {
    forall k | k in before ensures k in after && after[k] == before[k] {
      var i := Position(k.table);
      assert k == Key(TABLES[i], k.number);
    }
  }

  const NAMES: set<string> := set t | t in TABLES :: Name(t)

  function Total(xs: seq<nat>): nat {
    if xs == [] then 0 else Total(xs[..|xs| - 1]) + xs[|xs| - 1]
  }

  lemma {:induction false} TotalBytes(totals: seq<nat>, store: Store)
    requires |totals| == |store| && forall k :: 0 <= k < |store| ==> totals[k] == SumSize(store[k])
    ensures Total(totals) == Bytes(store)
  {
    if store != [] { TotalBytes(totals[..|totals| - 1], store[..|store| - 1]); }
  }

  class Job {
    const cfg: Config

    /** The bronze Parquet objects; `store` is what they add up to, part number by part number. */
    var objects: map<Key, Part>
    ghost var store: Store

    constructor (cfg: Config)
      ensures this.cfg == cfg && store == EMPTY && Valid()
    {
      this.cfg := cfg;
      objects := map[];
      store := EMPTY;
    }

    ghost predicate Valid()
      reads this
    {
      Represents(objects, store)
    }

    /** The part number is the one after the last, so no stored object is ever written over. */
    method Upload(i: nat, number: nat, part: Part)
      requires Valid() && i < 10 && number == |store[i]|
      modifies this
      ensures Valid() && store == old(store)[i := old(store[i]) + [part]]
      ensures Key(TABLES[i], number) !in old(objects)
      ensures objects == old(objects)[Key(TABLES[i], number) := part]
    {
      assert Key(TABLES[i], number) !in objects;
      objects := objects[Key(TABLES[i], number) := part];
      store := store[i := store[i] + [part]];
      forall j, n: nat | 0 <= j < 10
        ensures Key(TABLES[j], n) in objects <==> n < |store[j]|
        ensures n < |store[j]| ==> objects[Key(TABLES[j], n)] == store[j][n]
      {
        assert Key(TABLES[j], n) in old(objects) <==> n < |old(store)[j]|;
        if TABLES[i] == TABLES[j] { TablesDiffer(i, j); }
      }
    }

    /**
     `generate_table`, killed after `budget` uploads or not at all. What it adds is a prefix of what an uninterrupted
     call would upload, and everything when it is not killed.
     */
    method GenerateTable(i: nat, goal: Goal, parts: seq<Part>, budget: nat)
      returns (total: nat, rowCount: nat, killed: bool, left: nat)
      requires Valid() && i < 10 && Positive(cfg.size(TABLES[i]))
      requires Tiled(store[i]) && multiset(parts) == multiset(store[i])
      modifies this
      ensures Valid()
      ensures var ps := Produced(cfg.size(TABLES[i]), goal, old(Resumed(store[i])));
              store == old(store)[i := old(store[i]) + ps[..Min(budget, |ps|)]] &&
              killed == (budget < |ps|) && (!killed ==> left == budget - |ps|)
      ensures total == SumSize(store[i]) && rowCount == SumRows(store[i])
    {
      ghost var size := cfg.size(TABLES[i]);
      ghost var all := Produced(size, goal, Resumed(store[i]));
      ListingResumes(parts, store[i]);
      var g := Gen(SumSize(parts), SumRows(parts), NextStart(parts), |parts|, None);
      left, killed := budget, false;
      ghost var n := 0;
      assert old(store[i]) + all[..0] == old(store[i]);
      while Unfinished(goal, g)
        invariant |store| == 10 && Matches(g, store[i])
        invariant n <= |all| && left == budget - n && Produced(size, goal, g) == all[n..]
        invariant Valid() && store == old(store)[i := old(store[i]) + all[..n]]
        decreases |all| - n
      {
        var p := NextPart(cfg.size(TABLES[i]), goal, g);
        if left == 0 {
          killed := true;
          break;
        }
        ProducedStep(size, goal, g, all, n, old(store[i]));
        Upload(i, g.number, p);
        g := Advance(g, p);
        left := left - 1;
        n := n + 1;
      }
      assert !killed ==> all[..n] == all;
      total, rowCount := g.total, g.rowCount;
    }

    /** The first `i` tables are at their goals, with these totals. */
    ghost predicate Progress(i: nat, totals: seq<nat>, rows: seq<nat>)
      reads this
    {
      && i <= 10 == |store| && |totals| == |rows| == i && Inv(cfg, store)
      && (forall k :: 0 <= k < i ==> Met(cfg, store, k))
      && (forall k :: 0 <= k < i ==> totals[k] == SumSize(store[k]) && rows[k] == SumRows(store[k]))
    }

    /** The loop body of `main`: the goal of table `i` from the totals so far, then its parts. */
    method TableTurn(i: nat, totals: seq<nat>, rows: seq<nat>, parts: seq<Part>, left: nat)
      returns (total: nat, count: nat, killed: bool, rest: nat)
      requires Valid() && WellFormed(cfg) && i < 10 && Progress(i, totals, rows)
      requires multiset(parts) == multiset(store[i])
      modifies this
      ensures Valid() && Inv(cfg, store)
      ensures var ps := Missing(cfg, old(store), i);
              store == old(store)[i := old(store[i]) + ps[..Min(left, |ps|)]] &&
              killed == (left < |ps|) && (!killed ==> rest == left - |ps| && store == old(store)[i := old(store[i]) + ps])
      ensures !killed ==> Progress(i + 1, totals + [total], rows + [count])
    {
      ghost var ps := Missing(cfg, store, i);
      PlannedGoalIsGoal(cfg, store, i, totals, rows);
      total, count, killed, rest := GenerateTable(i, PlannedGoal(cfg, i, totals, rows), parts, left);
      TurnKeeps(cfg, old(store), i, Min(left, |ps|), store);
    }

    /** The loop over the tables. */
    method RunTables(parts: map<string, seq<Part>>, budget: nat) returns (r: Result<Manifest, HistoryError>)
      requires Valid() && WellFormed(cfg) && Inv(cfg, store)
      requires forall i :: 0 <= i < 10 ==> multiset(Listed(parts, TABLES[i])) == multiset(store[i])
      modifies this
      ensures Valid() && Inv(cfg, store) && Extends(old(store), store)
      ensures Outcome(store, r.Success?) == RunFrom(cfg, old(store), 0, budget)
      ensures r.Failure? ==> r.error == Killed
      ensures r.Success? ==> Describes(r.value)
    {
      var totals: seq<nat>, rows: seq<nat> := [], [];
      var left := budget;
      var i := 0;
      while i < 10
        invariant i <= 10 && Valid() && Progress(i, totals, rows)
        invariant forall k :: i <= k < 10 ==> store[k] == old(store[k])
        invariant RunFrom(cfg, old(store), 0, budget) == RunFrom(cfg, store, i, left)
        invariant Extends(old(store), store)
      {
        ghost var was := store;
        var total, count, killed, rest := TableTurn(i, totals, rows, Listed(parts, TABLES[i]), left);
        RunFromStep(cfg, old(store), was, i, left, store);
        if killed {
          return Failure(Killed);
        }
        totals, rows := totals + [total], rows + [count];
        left := rest;
        i := i + 1;
      }
      LastMetBudget(cfg, store);
      TotalBytes(totals, store);
      r := Success(Manifest(totals, rows, Total(totals), cfg.requested));
    }

    /** The manifest states what is stored, and the request is met. */
    ghost predicate Describes(m: Manifest)
      reads this
    {
      && |store| == |m.tables| == |m.rows| == 10
      && m.requested == cfg.requested && m.totalBytes == Bytes(store) >= cfg.requested
      && forall i :: 0 <= i < 10 ==> m.tables[i] == SumSize(store[i]) && m.rows[i] == SumRows(store[i])
    }

    /**
     One run of the generator over a listing in any order. A killed run leaves what `RunFrom` says; a completed one
     leaves every table at its goal and returns the manifest. An unreadable or unknown object stops it at once.
     */
    method Run(listing: seq<Item>, budget: nat) returns (r: Result<Manifest, HistoryError>)
      requires Valid() && WellFormed(cfg) && Inv(cfg, store)
      requires forall i :: 0 <= i < 10 ==> multiset(PartsIn(listing, Name(TABLES[i]))) == multiset(store[i])
      modifies this
      ensures Valid() && Inv(cfg, store) && Extends(old(store), store)
      ensures forall k :: k in old(objects) ==> k in objects && objects[k] == old(objects)[k]
      ensures r == Failure(NoRowMetadata) <==> exists i :: i in listing && !Readable(i)
      ensures r == Failure(UnknownTable) <==>
              (forall i :: i in listing ==> Readable(i)) && exists t :: t !in NAMES && PartsIn(listing, t) != []
      ensures r == Failure(NoRowMetadata) || r == Failure(UnknownTable) ==> store == old(store) && objects == old(objects)
      ensures r.Success? || r == Failure(Killed) ==>
                store == RunFrom(cfg, old(store), 0, budget).store &&
                (r.Success? <==> RunFrom(cfg, old(store), 0, budget).complete)
      ensures r.Success? ==> Describes(r.value)
    {
      var existing := ExistingParts(listing);
      if existing.Failure? {
        return Failure(existing.error);
      }
      var parts := existing.value;
      if exists t :: t in parts && t !in NAMES {
        return Failure(UnknownTable);
      }
      r := RunTables(parts, budget);
      ObjectsKept(old(objects), old(store), objects, store);
    }
  }
}

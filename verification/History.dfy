/** One table of the bronze history: the adaptive part sizes, the two stopping modes, and what they bound. */
module History {
  import opened Collections

  const MIB: int := 1024 * 1024
  const FILE_TARGET_BYTES: int := 128 * MIB

  /** What the object metadata and the listing say about one Parquet object. */
  datatype Part = Part(rowStart: nat, rowCount: nat, size: nat)

  /** The arguments that end the loop: a byte target, overridden by a row target when there is one. */
  datatype Goal = Goal(target: int, targetRows: Option<int>)

  /** The loop variables of `generate_table`. */
  datatype Gen = Gen(total: nat, rowCount: nat, start: nat, number: nat, bytesPerRow: Option<real>)

  /** The size in bytes of the Parquet file holding the rows `start .. start + rows`. */
  type FileSize = (nat, nat) -> nat

  /** Even a file of one row has a header. */
  ghost predicate Positive(size: FileSize) {
    forall start: nat, rows: nat :: rows > 0 ==> size(start, rows) > 0
  }

  /** `int(x)`: truncation toward zero. */
  function Trunc(x: real): int { if x >= 0.0 then x.Floor else -((-x).Floor) }

  // ---------------------------------------------------------------- one pass of the loop

  predicate Unfinished(goal: Goal, g: Gen) {
    if goal.targetRows.Some? then g.rowCount < goal.targetRows.value else g.total < goal.target
  }

  predicate Sane(g: Gen) { g.bytesPerRow.Some? ==> g.bytesPerRow.value > 0.0 }

  function ProbeRows(goal: Goal, g: Gen): int
    requires Sane(g)
  {
    var remaining := goal.target - g.total;
    var rows := match g.bytesPerRow
                case None => 100000
                case Some(b) => Max(1000, Trunc(Min(FILE_TARGET_BYTES, remaining) as real / b));
    if goal.targetRows.Some? then Min(rows, goal.targetRows.value - g.rowCount) else rows
  }

  /** The guard of the shrink branch. */
  predicate Shrinks(remaining: int, size: nat) {
    size as real > remaining as real * 1.05 && remaining < FILE_TARGET_BYTES
  }

  function ShrunkRows(rows: int, remaining: int, size: nat): (kept: int)
    requires size > 0
    ensures kept >= 1000
  {
    Max(1000, Trunc((rows * remaining) as real / size as real * 0.99))
  }

  function NextPart(size: FileSize, goal: Goal, g: Gen): (p: Part)
    requires Positive(size) && Sane(g) && Unfinished(goal, g)
    ensures p.rowCount > 0 && p.size > 0 && p.rowStart == g.start && p.size == size(p.rowStart, p.rowCount)
  {
    var remaining := goal.target - g.total;
    var rows: nat := ProbeRows(goal, g);
    var probe := size(g.start, rows);
    var kept: nat := if Shrinks(remaining, probe) then ShrunkRows(rows, remaining, probe) else rows;
    Part(g.start, kept, size(g.start, kept))
  }

  function Advance(g: Gen, p: Part): (h: Gen)
    requires p.rowCount > 0 && p.size > 0
    ensures Sane(h)
  {
    Gen(g.total + p.size, g.rowCount + p.rowCount, g.start + p.rowCount, g.number + 1,
        Some(p.size as real / p.rowCount as real))
  }

  function Left(goal: Goal, g: Gen): int {
    if goal.targetRows.Some? then goal.targetRows.value - g.rowCount else goal.target - g.total
  }

  /** Every part an uninterrupted call of `generate_table` uploads, in order. */
  function Produced(size: FileSize, goal: Goal, g: Gen): (ps: seq<Part>)
    requires Positive(size) && Sane(g)
    ensures forall p :: p in ps ==> p.rowCount > 0 && p.size > 0
    decreases Max(0, Left(goal, g))
  {
    if !Unfinished(goal, g) then []
    else
      var p := NextPart(size, goal, g);
      [p] + Produced(size, goal, Advance(g, p))
  }

  // ---------------------------------------------------------------- totals over parts

  function SumSize(ps: seq<Part>): nat {
    if ps == [] then 0 else SumSize(ps[..|ps| - 1]) + ps[|ps| - 1].size
  }

  function SumRows(ps: seq<Part>): nat {
    if ps == [] then 0 else SumRows(ps[..|ps| - 1]) + ps[|ps| - 1].rowCount
  }

  lemma {:induction false} SumsConcat(a: seq<Part>, b: seq<Part>)
    ensures SumSize(a + b) == SumSize(a) + SumSize(b)
    ensures SumRows(a + b) == SumRows(a) + SumRows(b)
  {
    if b == [] {
      assert a + b == a;
    } else {
      assert (a + b)[..|a + b| - 1] == a + b[..|b| - 1];
      SumsConcat(a, b[..|b| - 1]);
    }
  }

  lemma SumsOne(p: Part)
    ensures SumSize([p]) == p.size && SumRows([p]) == p.rowCount
  {
    assert [p][..0] == [];
  }

  /** The first part an unfinished call uploads, and the rest. */
  lemma OneStep(size: FileSize, goal: Goal, g: Gen)
    requires Positive(size) && Sane(g) && Unfinished(goal, g)
    ensures var p := NextPart(size, goal, g);
            SumRows(Produced(size, goal, g)) == p.rowCount + SumRows(Produced(size, goal, Advance(g, p))) &&
            SumSize(Produced(size, goal, g)) == p.size + SumSize(Produced(size, goal, Advance(g, p)))
  {
    var p := NextPart(size, goal, g);
    SumsConcat([p], Produced(size, goal, Advance(g, p)));
    SumsOne(p);
  }

  /** The row ranges of a table's parts follow one another from row 1, each non-empty. */
  predicate Tiled(ps: seq<Part>) {
    forall k :: 0 <= k < |ps| ==> ps[k].rowCount > 0 && ps[k].size > 0 && ps[k].rowStart == 1 + SumRows(ps[..k])
  }

  /** The loop variables a call starts from when the parts so far are `ps`. */
  function Resumed(ps: seq<Part>): Gen {
    Gen(SumSize(ps), SumRows(ps), 1 + SumRows(ps), |ps|, None)
  }

  predicate Matches(g: Gen, ps: seq<Part>) {
    Sane(g) && g.total == SumSize(ps) && g.rowCount == SumRows(ps) && g.start == 1 + SumRows(ps) && g.number == |ps|
  }

  lemma TiledSnoc(ps: seq<Part>, p: Part)
    requires Tiled(ps) && p.rowCount > 0 && p.size > 0 && p.rowStart == 1 + SumRows(ps)
    ensures Tiled(ps + [p])
  {
    var all := ps + [p];
    forall k | 0 <= k < |all| ensures all[k].rowStart == 1 + SumRows(all[..k]) {
      if k < |ps| {
        assert all[..k] == ps[..k];
      } else {
        assert all[..k] == ps;
      }
    }
  }

  lemma TiledInit(ps: seq<Part>)
    requires Tiled(ps) && ps != []
    ensures Tiled(ps[..|ps| - 1])
  {
    var init := ps[..|ps| - 1];
    assert forall k :: 0 <= k < |init| ==> init[..k] == ps[..k];
  }

  predicate Covers(p: Part, row: nat) { p.rowStart <= row < p.rowStart + p.rowCount }

  /** A tiling leaves no gap: exactly the rows `1 .. 1 + rows` lie in some part. */
  lemma {:induction false} TilesCover(ps: seq<Part>, row: nat)
    requires Tiled(ps)
    ensures 1 <= row < 1 + SumRows(ps) <==> exists k :: 0 <= k < |ps| && Covers(ps[k], row)
  {
    if ps != [] {
      var n := |ps| - 1;
      TiledInit(ps);
      TilesCover(ps[..n], row);
      if k :| 0 <= k < n && Covers(ps[..n][k], row) {
        assert Covers(ps[k], row);
      }
      if k :| 0 <= k < |ps| && Covers(ps[k], row) {
        assert k < n ==> Covers(ps[..n][k], row);
      }
      assert Covers(ps[n], row) <==> 1 + SumRows(ps[..n]) <= row < 1 + SumRows(ps);
    }
  }

  /** A tiling has no overlap: a part ends where or before any later one starts. */
  lemma TilesDisjoint(ps: seq<Part>, j: nat, k: nat)
    requires Tiled(ps) && j < k < |ps|
    ensures ps[j].rowStart + ps[j].rowCount <= ps[k].rowStart
  {
    SumsMonotone(ps[..k], j + 1);
    assert ps[..k][..j + 1] == ps[..j + 1] && ps[..j + 1][..j] == ps[..j];
  }

  lemma SumsMonotone(ps: seq<Part>, k: nat)
    requires k <= |ps|
    ensures SumRows(ps[..k]) <= SumRows(ps) && SumSize(ps[..k]) <= SumSize(ps)
  {
    assert ps == ps[..k] + ps[k..];
    SumsConcat(ps[..k], ps[k..]);
  }

  /** Wherever the call is cut off, what it has uploaded extends the tiling. */
  lemma {:induction false} ProducedTiles(size: FileSize, goal: Goal, ps: seq<Part>, g: Gen, k: nat)
    requires Positive(size) && Tiled(ps) && Matches(g, ps) && k <= |Produced(size, goal, g)|
    ensures Tiled(ps + Produced(size, goal, g)[..k])
    decreases k
  {
    if k == 0 {
      assert ps + Produced(size, goal, g)[..0] == ps;
    } else {
      var p := NextPart(size, goal, g);
      TiledSnoc(ps, p);
      SumsConcat(ps, [p]);
      SumsOne(p);
      ProducedTiles(size, goal, ps + [p], Advance(g, p), k - 1);
      assert Produced(size, goal, g)[..k] == [p] + Produced(size, goal, Advance(g, p))[..k - 1];
      assert ps + Produced(size, goal, g)[..k] == (ps + [p]) + Produced(size, goal, Advance(g, p))[..k - 1];
    }
  }

  /** An uninterrupted call meets its goal: nothing is left to produce from where it ends. */
  lemma {:induction false} ProducedFinishes(size: FileSize, goal: Goal, g: Gen)
    requires Positive(size) && Sane(g)
    ensures var ps := Produced(size, goal, g);
            if goal.targetRows.Some? then g.rowCount + SumRows(ps) >= goal.targetRows.value
            else g.total + SumSize(ps) >= goal.target
    decreases Max(0, Left(goal, g))
  {
    if Unfinished(goal, g) {
      var p := NextPart(size, goal, g);
      ProducedFinishes(size, goal, Advance(g, p));
      OneStep(size, goal, g);
    }
  }

  // ---------------------------------------------------------------- row mode

  /** Along the run, the shrink branch fires while fewer than 1000 rows are still wanted. */
  predicate ShrinkRaises(size: FileSize, goal: Goal, g: Gen)
    requires Positive(size) && Sane(g) && goal.targetRows.Some?
    decreases Max(0, Left(goal, g))
  {
    Unfinished(goal, g) &&
    var left := goal.targetRows.value - g.rowCount;
    var probe := size(g.start, ProbeRows(goal, g));
    ((left < 1000 && Shrinks(goal.target - g.total, probe)) ||
     ShrinkRaises(size, goal, Advance(g, NextPart(size, goal, g))))
  }

  lemma MulLe(a: real, b: real, c: real)
    requires a <= b && c >= 0.0
    ensures a * c <= b * c
  {
  }

  /** When the guard holds, the estimate asks for fewer rows than the probe held. */
  lemma ShrinkEstimate(rows: nat, remaining: int, size: nat)
    requires rows > 0 && size > 0 && Shrinks(remaining, size)
    ensures ShrunkRows(rows, remaining, size) == 1000 || ShrunkRows(rows, remaining, size) < rows
  {
    var quotient := (rows * remaining) as real / size as real;
    assert quotient * size as real == (rows * remaining) as real;
    if remaining <= 0 {
      assert rows * remaining <= 0;
      assert quotient <= 0.0;
    } else {
      MulLe(remaining as real * 1.05, size as real, rows as real);
      assert (rows * remaining) as real * 1.05 <= size as real * rows as real;
      assert quotient * 1.05 * size as real <= rows as real * size as real;
      assert quotient * 1.05 <= rows as real;
    }
  }

  /** One pass overshoots the row target only through a shrink that wants 1000 rows where fewer are left. */
  lemma RowStep(size: FileSize, goal: Goal, g: Gen)
    requires Positive(size) && Sane(g) && goal.targetRows.Some? && Unfinished(goal, g)
    ensures var left := goal.targetRows.value - g.rowCount;
            var p := NextPart(size, goal, g);
            var probe := size(g.start, ProbeRows(goal, g));
            if left < 1000 && Shrinks(goal.target - g.total, probe) then left < p.rowCount == 1000
            else p.rowCount <= left
  {
    var rows := ProbeRows(goal, g);
    var probe := size(g.start, rows);
    if Shrinks(goal.target - g.total, probe) {
      ShrinkEstimate(rows, goal.target - g.total, probe);
    }
  }

  /**
   The row target is reached with at most 999 rows too many, and exactly if and only if the shrink branch never fires
   with fewer than 1000 rows to go.
   */
  lemma {:induction false} RowModeBound(size: FileSize, goal: Goal, g: Gen)
    requires Positive(size) && Sane(g) && goal.targetRows.Some? && g.rowCount <= goal.targetRows.value
    ensures var final := g.rowCount + SumRows(Produced(size, goal, g));
            goal.targetRows.value <= final <= goal.targetRows.value + 999 &&
            (final == goal.targetRows.value <==> !ShrinkRaises(size, goal, g))
    decreases Left(goal, g)
  {
    if Unfinished(goal, g) {
      var p := NextPart(size, goal, g);
      var h := Advance(g, p);
      RowStep(size, goal, g);
      OneStep(size, goal, g);
      if h.rowCount <= goal.targetRows.value {
        RowModeBound(size, goal, h);
      } else {
        assert Produced(size, goal, h) == [];
      }
    }
  }

  /** The probe asks for at least one row, and in row mode for no more than are left. */
  lemma ProbeWithin(goal: Goal, g: Gen)
    requires Sane(g) && Unfinished(goal, g)
    ensures ProbeRows(goal, g) > 0
    ensures goal.targetRows.Some? ==> ProbeRows(goal, g) <= goal.targetRows.value - g.rowCount
  {
    hide Trunc;
  }

  /** With nothing left of the byte target the guard holds and the estimate is the least part. */
  lemma NothingLeftShrinks(rows: nat, remaining: int, probe: nat)
    requires rows > 0 && probe > 0 && remaining <= 0
    ensures Shrinks(remaining, probe) && ShrunkRows(rows, remaining, probe) == 1000
  {
    var quotient := (rows * remaining) as real / probe as real;
    assert quotient * probe as real == (rows * remaining) as real;
    assert rows * remaining <= 0;
    assert quotient <= 0.0;
  }

  lemma PastBudgetStep(size: FileSize, goal: Goal, g: Gen)
    requires Positive(size) && Sane(g) && goal.targetRows.Some? && Unfinished(goal, g) && goal.target <= g.total
    ensures NextPart(size, goal, g).rowCount == 1000
  {
    hide ProbeRows, Shrinks, ShrunkRows;
    ProbeWithin(goal, g);
    NothingLeftShrinks(ProbeRows(goal, g), goal.target - g.total, size(g.start, ProbeRows(goal, g)));
  }

  lemma Thousands(left: nat)
    ensures left >= 1000 ==> left % 1000 == (left - 1000) % 1000
    ensures 0 < left < 1000 ==> left % 1000 != 0
  {
  }

  /** Once the byte target is used up every part holds 1000 rows, so the count is exact only for whole thousands. */
  lemma {:induction false} RowModePastBudget(size: FileSize, goal: Goal, g: Gen)
    requires Positive(size) && Sane(g) && goal.targetRows.Some? && g.rowCount <= goal.targetRows.value
    requires goal.target <= g.total
    ensures g.rowCount + SumRows(Produced(size, goal, g)) == goal.targetRows.value
            <==> (goal.targetRows.value - g.rowCount) % 1000 == 0
    decreases Left(goal, g)
  {
    hide NextPart;
    if Unfinished(goal, g) {
      var p := NextPart(size, goal, g);
      var h := Advance(g, p);
      PastBudgetStep(size, goal, g);
      OneStep(size, goal, g);
      Thousands(Left(goal, g));
      if h.rowCount <= goal.targetRows.value {
        RowModePastBudget(size, goal, h);
      } else {
        assert Produced(size, goal, h) == [];
      }
    }
  }

  ghost predicate Covered(size: FileSize, goal: Goal, g: Gen, hi: real)
    requires goal.targetRows.Some?
  {
    && hi >= 0.0 && (forall start: nat, rows: nat :: size(start, rows) as real <= hi * rows as real)
    && hi * (goal.targetRows.value - g.rowCount) as real <= (goal.target - g.total) as real
  }

  lemma CoveredStep(size: FileSize, goal: Goal, g: Gen, hi: real)
    requires Positive(size) && Sane(g) && goal.targetRows.Some? && Unfinished(goal, g) && Covered(size, goal, g, hi)
    ensures var p := NextPart(size, goal, g);
            p.rowCount <= goal.targetRows.value - g.rowCount && Covered(size, goal, Advance(g, p), hi)
  {
    hide ProbeRows, Shrinks, ShrunkRows;
    ProbeWithin(goal, g);
    var rows: nat := ProbeRows(goal, g);
    NoShrink(size(g.start, rows), rows, goal.targetRows.value - g.rowCount, goal.target - g.total, hi);
  }

  lemma NoShrink(probe: nat, rows: nat, left: nat, remaining: int, hi: real)
    requires hi >= 0.0 && rows <= left && probe as real <= hi * rows as real && hi * left as real <= remaining as real
    ensures !Shrinks(remaining, probe)
    ensures hi * (left - rows) as real <= (remaining - probe) as real
  {
    MulLe(rows as real, left as real, hi);
    assert hi * (left - rows) as real == hi * left as real - hi * rows as real;
  }

  /** While the byte target covers the rows that are left, the shrink branch is never taken. */
  lemma {:induction false} RowModeCovered(size: FileSize, goal: Goal, g: Gen, hi: real)
    requires Positive(size) && Sane(g) && goal.targetRows.Some? && g.rowCount <= goal.targetRows.value
    requires Covered(size, goal, g, hi)
    ensures g.rowCount + SumRows(Produced(size, goal, g)) == goal.targetRows.value
    decreases Left(goal, g)
  {
    if Unfinished(goal, g) {
      var p := NextPart(size, goal, g);
      var h := Advance(g, p);
      CoveredStep(size, goal, g, hi);
      OneStep(size, goal, g);
      RowModeCovered(size, goal, h, hi);
    }
  }

  // ---------------------------------------------------------------- byte mode

  /** File sizes lie within five percent of proportional, and a probe of 100000 rows fits one file target. */
  ghost predicate NearLinear(size: FileSize, lo: real, hi: real) {
    && 0.0 < lo <= hi <= lo * 1.05 && hi * 100000.0 <= FILE_TARGET_BYTES as real
    && forall start: nat, rows: nat :: lo * rows as real <= size(start, rows) as real <= hi * rows as real
  }

  predicate RateKnown(g: Gen, lo: real, hi: real) {
    g.bytesPerRow.Some? ==> lo <= g.bytesPerRow.value <= hi
  }

  /** A row estimate `rows <= budget / rate` costs at most five percent more than the budget. */
  lemma EstimateCost(rows: nat, budget: real, rate: real, lo: real, hi: real)
    requires 0.0 < lo <= rate && 0.0 <= hi <= lo * 1.05 && 0.0 <= budget && rows as real <= budget / rate
    ensures hi * rows as real <= budget * 1.05
  {
    var q := budget / rate;
    assert q * rate == budget;
    MulLe(rows as real, q, rate);
    MulLe(lo, rate, rows as real);
    assert lo * rows as real <= budget;
    MulLe(hi, lo * 1.05, rows as real);
  }

  lemma ThousandRows(hi: real)
    requires hi * 100000.0 <= FILE_TARGET_BYTES as real
    ensures hi * 1000.0 <= FILE_TARGET_BYTES as real / 100.0
  {
  }

  lemma TruncBelow(x: real, n: int)
    requires n > 0 && n == Trunc(x)
    ensures n as real <= x
  {
  }

  /** The probe file never costs more than a file target, or five percent over what it was sized for. */
  lemma ProbeCost(size: FileSize, goal: Goal, g: Gen, lo: real, hi: real)
    requires Positive(size) && NearLinear(size, lo, hi) && Sane(g) && RateKnown(g, lo, hi)
    requires goal.targetRows.None? && Unfinished(goal, g)
    ensures var remaining := goal.target - g.total;
            var probe := size(g.start, ProbeRows(goal, g)) as real;
            probe <= FILE_TARGET_BYTES as real || probe <= Min(FILE_TARGET_BYTES, remaining) as real * 1.05
  {
    hide Trunc;
    var remaining := goal.target - g.total;
    var rows: nat := ProbeRows(goal, g);
    assert size(g.start, rows) as real <= hi * rows as real;
    if g.bytesPerRow.Some? {
      EstimatedProbe(rows, Min(FILE_TARGET_BYTES, remaining), g.bytesPerRow.value, lo, hi);
    }
  }

  /** The estimate from the last part, at least 1000 rows. */
  lemma EstimatedProbe(rows: nat, budget: nat, rate: real, lo: real, hi: real)
    requires 0.0 < lo <= rate && 0.0 <= hi <= lo * 1.05 && hi * 100000.0 <= FILE_TARGET_BYTES as real
    requires rows == Max(1000, Trunc(budget as real / rate))
    ensures hi * rows as real <= FILE_TARGET_BYTES as real || hi * rows as real <= budget as real * 1.05
  {
    if rows == 1000 {
      ThousandRows(hi);
    } else {
      TruncBelow(budget as real / rate, rows);
      hide Trunc;
      EstimateCost(rows, budget as real, rate, lo, hi);
    }
  }

  lemma ShrunkCost(rows: nat, remaining: nat, probe: nat, lo: real, hi: real)
    requires rows > 0 && probe > 0 && remaining > 0
    requires 0.0 < lo && 0.0 <= hi <= lo * 1.05 && lo * rows as real <= probe as real
    requires ShrunkRows(rows, remaining, probe) > 1000
    ensures hi * ShrunkRows(rows, remaining, probe) as real <= remaining as real * 1.05
  {
    var q := (rows * remaining) as real / probe as real;
    assert q * probe as real == rows as real * remaining as real;
    assert q >= 0.0;
    var kept := ShrunkRows(rows, remaining, probe);
    TruncBelow(q * 0.99, kept);
    MulLe(lo * rows as real, probe as real, q);
    assert lo * rows as real * q <= rows as real * remaining as real;
    Cancel(lo * q, remaining as real, rows as real);
    MulLe(kept as real, q, lo);
    MulLe(hi, lo * 1.05, kept as real);
  }

  lemma Cancel(a: real, b: real, c: real)
    requires c > 0.0 && a * c <= b * c
    ensures a <= b
  {
    if a > b { MulLt(b, a, c); }
  }

  lemma MulLt(a: real, b: real, c: real)
    requires a < b && c > 0.0
    ensures a * c < b * c
  {
    assert (b - a) * c > 0.0;
  }

  lemma ByteStep(size: FileSize, goal: Goal, g: Gen, lo: real, hi: real)
    requires Positive(size) && NearLinear(size, lo, hi) && Sane(g) && RateKnown(g, lo, hi)
    requires goal.targetRows.None? && Unfinished(goal, g)
    ensures NextPart(size, goal, g).size as real <=
            (goal.target - g.total) as real + FILE_TARGET_BYTES as real / 20.0
  {
    hide ProbeRows, Shrinks, ShrunkRows;
    ProbeWithin(goal, g);
    var remaining := goal.target - g.total;
    var rows: nat := ProbeRows(goal, g);
    var probe := size(g.start, rows);
    ProbeCost(size, goal, g, lo, hi);
    if Shrinks(remaining, probe) {
      var kept: nat := ShrunkRows(rows, remaining, probe);
      ShrunkOvershoot(rows, remaining, probe, size(g.start, kept), lo, hi);
    } else {
      PlainOvershoot(remaining, probe);
    }
  }

  lemma PlainOvershoot(remaining: nat, probe: nat)
    requires !Shrinks(remaining, probe)
    requires probe as real <= FILE_TARGET_BYTES as real || probe as real <= Min(FILE_TARGET_BYTES, remaining) as real * 1.05
    ensures probe as real <= remaining as real + FILE_TARGET_BYTES as real / 20.0
  {
  }

  lemma ShrunkOvershoot(rows: nat, remaining: nat, probe: nat, final: nat, lo: real, hi: real)
    requires rows > 0 && probe > 0 && remaining > 0 && Shrinks(remaining, probe)
    requires 0.0 < lo <= hi <= lo * 1.05 && hi * 100000.0 <= FILE_TARGET_BYTES as real
    requires lo * rows as real <= probe as real && final as real <= hi * ShrunkRows(rows, remaining, probe) as real
    ensures final as real <= remaining as real + FILE_TARGET_BYTES as real / 20.0
  {
    if ShrunkRows(rows, remaining, probe) == 1000 {
      ThousandRows(hi);
    } else {
      ShrunkCost(rows, remaining, probe, lo, hi);
    }
  }

  lemma RateStaysInBand(size: FileSize, g: Gen, p: Part, lo: real, hi: real)
    requires NearLinear(size, lo, hi) && p.rowCount > 0 && p.size > 0 && p.size == size(p.rowStart, p.rowCount)
    ensures RateKnown(Advance(g, p), lo, hi)
  {
    RateInBand(p.size as real, p.rowCount as real, lo, hi);
  }

  lemma RateInBand(size: real, rows: real, lo: real, hi: real)
    requires rows > 0.0 && lo * rows <= size <= hi * rows
    ensures lo <= size / rows <= hi
  {
    var q := size / rows;
    assert q * rows == size;
    Cancel(lo, q, rows);
    Cancel(q, hi, rows);
  }

  /**
   A call that starts below its byte target ends at or above it, by at most a twentieth of a file target; the first
   probe, the estimates and the shrink branch included. Sizes proportional to the rows are the case `lo == hi`.
   */
  lemma {:induction false} ByteModeBound(size: FileSize, goal: Goal, g: Gen, lo: real, hi: real)
    requires Positive(size) && NearLinear(size, lo, hi) && Sane(g) && RateKnown(g, lo, hi)
    requires goal.targetRows.None? && Unfinished(goal, g)
    ensures goal.target <= g.total + SumSize(Produced(size, goal, g))
    ensures (g.total + SumSize(Produced(size, goal, g))) as real <= goal.target as real + FILE_TARGET_BYTES as real / 20.0
    decreases Left(goal, g)
  {
    var p := NextPart(size, goal, g);
    var h := Advance(g, p);
    ByteStep(size, goal, g, lo, hi);
    RateStaysInBand(size, g, p, lo, hi);
    OneStep(size, goal, g);
    if Unfinished(goal, h) {
      ByteModeBound(size, goal, h, lo, hi);
    }
  }
}

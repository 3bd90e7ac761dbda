/** `_publish_layer`: staged tables replace the final ones one by one. */
module Publish {
  import opened Collections
  import opened Catalog

  ghost function NameSet(names: seq<string>): set<string> { set n | n in names }

  /** The final namespace once the first `k` names have been replaced by their staged tables. */
  ghost function Moved(final: Tables, stage: Tables, names: seq<string>, k: nat): Tables
    requires k <= |names| && NameSet(names) <= stage.Keys
  {
    map n | n in final.Keys + NameSet(names[..k]) :: if n in names[..k] then stage[n] else final[n]
  }

  lemma MovedNone(final: Tables, stage: Tables, names: seq<string>)
    requires NameSet(names) <= stage.Keys
    ensures Moved(final, stage, names, 0) == final
  {
    assert names[..0] == [];
  }

  lemma MovedStep(final: Tables, stage: Tables, names: seq<string>, k: nat)
    requires k < |names| && NameSet(names) <= stage.Keys && Distinct(names)
    ensures names[k] in stage
    ensures names[k] in Moved(final, stage, names, k) <==> names[k] in final
    ensures Moved(final, stage, names, k + 1) == (Moved(final, stage, names, k) - {names[k]})[names[k] := stage[names[k]]]
    ensures names[k] in stage - NameSet(names[..k])
    ensures (stage - NameSet(names[..k])) - {names[k]} == stage - NameSet(names[..k + 1])
  {
    assert names[..k + 1] == names[..k] + [names[k]];
    assert NameSet(names[..k + 1]) == NameSet(names[..k]) + {names[k]};
    assert names[k] in NameSet(names) && names[k] !in names[..k];
  }

  /** Where a publication of `names` stands: `k` tables replaced, and with `gap` the next one purged but not renamed. */
  ghost predicate Stands(final: Tables, stage: Tables, names: seq<string>, now: Tables, k: nat, gap: bool) {
    && NameSet(names) <= stage.Keys && k <= |names| && (gap ==> k < |names|)
    && now == Moved(final, stage, names, k) - (if gap then {names[k]} else {})
  }

  /** All namespaces but the two of a publication are as they were. */
  ghost predicate OthersKept(before: Spaces, after: Spaces, a: Namespace, b: Namespace) {
    after - {a, b} == before - {a, b}
  }

  // ---------------------------------------------------------------- how far a publication gets

  /** The calls that replace the first `k` names: a rename each, and a purge for each table that is there already. */
  function MoveCost(names: seq<string>, existing: set<string>, k: nat): nat
    requires k <= |names|
  {
    if k == 0 then 0 else MoveCost(names, existing, k - 1) + if names[k - 1] in existing then 2 else 1
  }

  lemma {:induction false} MoveCostGrows(names: seq<string>, existing: set<string>, j: nat, k: nat)
    requires j <= k <= |names|
    ensures MoveCost(names, existing, j) + (k - j) <= MoveCost(names, existing, k)
    decreases k
  {
    if j < k { MoveCostGrows(names, existing, j, k - 1); }
  }

  /** `moves` purges and renames have replaced `k` tables and, with `gap`, purged one more. */
  predicate PlacedAt(names: seq<string>, existing: set<string>, moves: nat, k: nat, gap: bool) {
    && k <= |names| && MoveCost(names, existing, k) + (if gap then 1 else 0) == moves
    && (gap ==> k < |names| && names[k] in existing)
  }

  /** The final tables after that many of the purges and renames of a publication. */
  ghost predicate StandsAfter(final: Tables, stage: Tables, names: seq<string>, now: Tables, moves: nat) {
    exists k: nat, gap {:trigger PlacedAt(names, final.Keys, moves, k, gap)} ::
      PlacedAt(names, final.Keys, moves, k, gap) && Stands(final, stage, names, now, k, gap)
  }

  /** One table of the loop: purge the final one if it exists, then rename the staged one. */
  method MoveTable(c: IcebergCatalog, staging: Namespace, final: Namespace, name: string, present: bool) returns (ok: bool)
    requires staging != final && staging in c.spaces && final in c.spaces && name in c.spaces[staging]
    requires present <==> name in c.spaces[final]
    modifies c
    ensures c.lost == old(c.lost) && OthersKept(old(c.spaces), c.spaces, staging, final)
    ensures final in c.spaces && staging in c.spaces
    ensures var cost := if present then 2 else 1;
            && (ok <==> Affords(old(c.healthy), cost))
            && (ok ==> c.healthy == Spend(old(c.healthy), cost) && c.spaces[staging] == old(c.spaces)[staging] - {name})
            && c.spaces[final] ==
               var before, done := old(c.spaces)[final], Effective(old(c.healthy), c.lost, cost);
               if done == cost then before[name := old(c.spaces)[staging][name]]
               else if done == 1 then before - {name} else before
  {
    if present {
      ok := c.Do(PurgeTable(final, name));
      if !ok { return; }
    }
    assert c.spaces[final] == old(c.spaces)[final] - {name};
    assert (old(c.spaces)[final] - {name})[name := old(c.spaces)[staging][name]]
        == old(c.spaces)[final][name := old(c.spaces)[staging][name]];
    ok := c.Do(RenameTable(staging, name, final));
  }

  /** Turn `i` of the loop. */
  method MoveNext(c: IcebergCatalog, staging: Namespace, final: Namespace, names: seq<string>, i: nat, present: bool,
                  ghost before: Tables, ghost stage: Tables)
    returns (ok: bool)
    requires staging != final && staging in c.spaces && final in c.spaces && i < |names| && Distinct(names)
    requires Stands(before, stage, names, c.spaces[final], i, false) && c.spaces[staging] == stage - NameSet(names[..i])
    requires present <==> names[i] in before
    modifies c
    ensures c.lost == old(c.lost) && OthersKept(old(c.spaces), c.spaces, staging, final)
    ensures final in c.spaces && staging in c.spaces
    ensures var cost := if present then 2 else 1;
            && (ok <==> Affords(old(c.healthy), cost))
            && (ok ==> c.healthy == Spend(old(c.healthy), cost) && c.spaces[staging] == stage - NameSet(names[..i + 1]))
            && StandsFrom(before, stage, names, c.spaces[final], i, Effective(old(c.healthy), c.lost, cost))
  {
    NameStaged(before, stage, names, i);
    ok := MoveTable(c, staging, final, names[i], present);
    NextStands(before, stage, names, i, c.spaces[final], Effective(old(c.healthy), c.lost, if present then 2 else 1));
  }

  /** Where turn `i` stands after `done` of its one or two calls. */
  ghost predicate StandsFrom(before: Tables, stage: Tables, names: seq<string>, now: Tables, i: nat, done: nat)
    requires i < |names|
  {
    if done == (if names[i] in before then 2 else 1) then Stands(before, stage, names, now, i + 1, false)
    else Stands(before, stage, names, now, i, done == 1)
  }

  lemma NameStaged(before: Tables, stage: Tables, names: seq<string>, i: nat)
    requires i < |names| && Distinct(names) && NameSet(names) <= stage.Keys
    ensures names[i] in stage - NameSet(names[..i])
    ensures (stage - NameSet(names[..i]))[names[i]] == stage[names[i]]
    ensures names[i] in Moved(before, stage, names, i) <==> names[i] in before
    ensures (stage - NameSet(names[..i])) - {names[i]} == stage - NameSet(names[..i + 1])
  {
    MovedStep(before, stage, names, i);
  }

  lemma NextStands(before: Tables, stage: Tables, names: seq<string>, i: nat, now: Tables, done: nat)
    requires i < |names| && Distinct(names) && NameSet(names) <= stage.Keys && names[i] in stage
    requires var m, cost := Moved(before, stage, names, i), if names[i] in before then 2 else 1;
             && done <= cost
             && now == if done == cost then m[names[i] := stage[names[i]]] else if done == 1 then m - {names[i]} else m
    ensures StandsFrom(before, stage, names, now, i, done)
  {
    hide Moved;
    MovedStep(before, stage, names, i);
    var m := Moved(before, stage, names, i);
    if done == (if names[i] in before then 2 else 1) {
      assert m[names[i] := stage[names[i]]] == (m - {names[i]})[names[i] := stage[names[i]]];
      assert now - {} == now == Moved(before, stage, names, i + 1);
    } else {
      assert m - {} == m;
    }
  }

  /** A loop that stops in turn `i` has made the moves of the turns before it and those of that turn. */
  lemma StopsAt(before: Tables, stage: Tables, names: seq<string>, now: Tables, i: nat, healthy: Option<nat>, lost: bool)
    requires i < |names| && Affords(healthy, MoveCost(names, before.Keys, i))
    requires var cost := if names[i] in before then 2 else 1;
             var rest := Spend(healthy, MoveCost(names, before.Keys, i));
             !Affords(rest, cost) && StandsFrom(before, stage, names, now, i, Effective(rest, lost, cost))
    ensures !Affords(healthy, MoveCost(names, before.Keys, |names|))
    ensures StandsAfter(before, stage, names, now, Effective(healthy, lost, MoveCost(names, before.Keys, |names|)))
  {
    hide Stands, Affords, Spend, Effective;
    var existing, cost := before.Keys, if names[i] in before then 2 else 1;
    var done := Effective(Spend(healthy, MoveCost(names, existing, i)), lost, cost);
    MoveCostGrows(names, existing, i + 1, |names|);
    StopCount(healthy, lost, MoveCost(names, existing, i), cost, MoveCost(names, existing, |names|));
    var moves := Effective(healthy, lost, MoveCost(names, existing, |names|));
    if done == cost {
      assert PlacedAt(names, existing, moves, i + 1, false);
    } else {
      assert PlacedAt(names, existing, moves, i, done == 1);
    }
  }

  lemma StopCount(healthy: Option<nat>, lost: bool, before: nat, cost: nat, total: nat)
    requires Affords(healthy, before) && !Affords(Spend(healthy, before), cost) && before + cost <= total
    ensures !Affords(healthy, total)
    ensures Effective(healthy, lost, total) == before + Effective(Spend(healthy, before), lost, cost)
  {
  }

  lemma NothingMoved(final: Tables, stage: Tables, names: seq<string>)
    requires NameSet(names) <= stage.Keys
    ensures Stands(final, stage, names, final, 0, false) && stage == stage - NameSet(names[..0])
  {
    MovedNone(final, stage, names);
  }

  method PublishTables(c: IcebergCatalog, staging: Namespace, final: Namespace, names: seq<string>, existing: set<string>)
    returns (ok: bool)
    requires staging != final && staging in c.spaces && final in c.spaces && Distinct(names)
    requires NameSet(names) <= c.spaces[staging].Keys && existing == c.spaces[final].Keys
    modifies c
    ensures c.lost == old(c.lost) && OthersKept(old(c.spaces), c.spaces, staging, final)
    ensures final in c.spaces && staging in c.spaces
    ensures var cost := MoveCost(names, existing, |names|);
            && (ok <==> Affords(old(c.healthy), cost))
            && (ok ==> c.healthy == Spend(old(c.healthy), cost) &&
                       c.spaces[staging] == old(c.spaces)[staging] - NameSet(names))
            && StandsAfter(old(c.spaces)[final], old(c.spaces)[staging], names, c.spaces[final],
                           Effective(old(c.healthy), c.lost, cost))
  {
    hide Stands;
    ghost var before, stage := c.spaces[final], c.spaces[staging];
    ok := true;
    NothingMoved(before, stage, names);
    for i := 0 to |names|
      invariant c.lost == old(c.lost) && OthersKept(old(c.spaces), c.spaces, staging, final)
      invariant final in c.spaces && staging in c.spaces && ok && Affords(old(c.healthy), MoveCost(names, existing, i))
      invariant c.healthy == Spend(old(c.healthy), MoveCost(names, existing, i))
      invariant Stands(before, stage, names, c.spaces[final], i, false)
      invariant c.spaces[staging] == stage - NameSet(names[..i])
    {
      ok := MoveNext(c, staging, final, names, i, names[i] in existing, before, stage);
      SpendAgain(old(c.healthy), c.lost, MoveCost(names, existing, i), if names[i] in existing then 2 else 1);
      if !ok {
        StopsAt(before, stage, names, c.spaces[final], i, old(c.healthy), c.lost);
        return;
      }
    }
    assert names[..|names|] == names;
    assert PlacedAt(names, existing, MoveCost(names, existing, |names|), |names|, false);
  }

  /** The calls before the first move: the final namespace is ensured and listed. */
  function Lead(spaces: Spaces, final: Namespace): nat { EnsureCost(spaces, final) + 1 }

  /** All calls of a publication; the last one drops the staging namespace. */
  function LayerCost(spaces: Spaces, final: Namespace, names: seq<string>): nat {
    Lead(spaces, final) + MoveCost(names, TablesIn(spaces, final).Keys, |names|) + 1
  }

  /** How many of `moves` moves that follow `lead` other calls are among the first `calls`. */
  function Reached(calls: nat, lead: nat, moves: nat): (r: nat)
    ensures r <= moves
  {
    if calls <= lead then 0 else if calls - lead < moves then calls - lead else moves
  }

  /**
   A publication that does not fail replaces exactly `names`, and drops a staging namespace its own renames have
   emptied. One that fails has made exactly the moves that the calls before the failure, and a lost answer, allow.
   */
  method PublishLayer(c: IcebergCatalog, staging: Namespace, final: Namespace, names: seq<string>) returns (ok: bool)
    requires staging != final && staging in c.spaces && c.spaces[staging].Keys == NameSet(names) && Distinct(names)
    modifies c
    ensures c.lost == old(c.lost) && OthersKept(old(c.spaces), c.spaces, staging, final)
    ensures ok <==> Affords(old(c.healthy), LayerCost(old(c.spaces), final, names))
    ensures ok ==> c.healthy == Spend(old(c.healthy), LayerCost(old(c.spaces), final, names))
    ensures ok ==> final in c.spaces && staging !in c.spaces
    ensures var before := TablesIn(old(c.spaces), final);
            StandsAfter(before, old(c.spaces)[staging], names, TablesIn(c.spaces, final),
                        Reached(Effective(old(c.healthy), c.lost, LayerCost(old(c.spaces), final, names)),
                                Lead(old(c.spaces), final), MoveCost(names, before.Keys, |names|)))
  {
    hide MoveCost, StandsAfter, Affords, Spend, Effective, Reached, NameSet, Distinct;
    ghost var before, h, lead := TablesIn(c.spaces, final), c.healthy, Lead(c.spaces, final);
    ghost var moves := MoveCost(names, before.Keys, |names|);
    NoMoves(before, c.spaces[staging], names);
    LayerCalls(h, c.lost, lead, moves);
    ok := EnsureNamespace(c, final);
    if !ok { return; }
    ok := c.Do(ListTables(final));
    if !ok { return; }
    ok := PublishTables(c, staging, final, names, c.spaces[final].Keys);
    if !ok { return; }
    assert c.spaces[staging] == map[];
    assert (c.spaces - {staging}) - {staging, final} == c.spaces - {staging, final};
    ok := c.Do(DropNamespace(staging));
  }

  /** What the calls of a layer afford, stretch by stretch: ensuring, listing, moving, dropping. */
  lemma LayerCalls(healthy: Option<nat>, lost: bool, lead: nat, moves: nat)
    requires lead >= 1
    ensures var total := lead + moves + 1;
            var reached := Reached(Effective(healthy, lost, total), lead, moves);
            && (Affords(healthy, total) ==> Affords(healthy, lead - 1) && Affords(Spend(healthy, lead - 1), 1))
            && (!Affords(healthy, lead - 1) ==> !Affords(healthy, total) && reached == 0)
            && (Affords(healthy, lead - 1) && !Affords(Spend(healthy, lead - 1), 1) ==>
                  !Affords(healthy, total) && reached == 0)
            && (Affords(healthy, lead - 1) && Affords(Spend(healthy, lead - 1), 1) ==>
                  var rest := Spend(Spend(healthy, lead - 1), 1);
                  && reached == Effective(rest, lost, moves)
                  && (!Affords(rest, moves) ==> !Affords(healthy, total))
                  && (Affords(rest, moves) ==>
                        && (Affords(Spend(rest, moves), 1) <==> Affords(healthy, total))
                        && (Affords(healthy, total) ==> Spend(Spend(rest, moves), 1) == Spend(healthy, total))))
  {
  }

  lemma NoMoves(final: Tables, stage: Tables, names: seq<string>)
    requires NameSet(names) <= stage.Keys
    ensures StandsAfter(final, stage, names, final, 0)
  {
    MovedNone(final, stage, names);
    assert PlacedAt(names, final.Keys, 0, 0, false);
    assert Stands(final, stage, names, final, 0, false);
  }
}

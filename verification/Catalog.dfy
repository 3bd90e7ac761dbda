/** The Iceberg catalog: namespaces of tables, calls that may fail, and the namespace helpers around them. */
module Catalog {
  import opened Collections

  /** The two final namespaces, the staging namespaces of numbered runs, and whatever else the catalog holds. */
  datatype Namespace = FinalSilver | FinalGold | StageSilver(run: nat) | StageGold(run: nat) | Foreign(name: string)

  predicate IsStage(ns: Namespace) { ns.StageSilver? || ns.StageGold? }

  /** Batch ids are run numbers; `counted` is the sum of the count column the validator adds up. */
  datatype Meta = Meta(batch: nat, sha: Option<string>, rows: nat, counted: int)

  type Tables = map<string, Meta>

  type Spaces = map<Namespace, Tables>

  datatype Call =
    | ListNamespaces
    | CreateNamespace(ns: Namespace)
    | DropNamespace(ns: Namespace)
    | ListTables(ns: Namespace)
    | CreateTable(ns: Namespace, name: string, meta: Meta)
    | Append(ns: Namespace, name: string, rows: nat, counted: int)
    | PurgeTable(ns: Namespace, name: string)
    | RenameTable(ns: Namespace, name: string, to: Namespace)

  /** What the catalog accepts; in particular it drops no namespace that still holds a table. */
  predicate Legal(spaces: Spaces, c: Call) {
    match c
    case ListNamespaces => true
    case CreateNamespace(ns) => ns !in spaces
    case DropNamespace(ns) => ns in spaces && spaces[ns] == map[]
    case ListTables(ns) => ns in spaces
    case CreateTable(ns, name, meta) => ns in spaces && name !in spaces[ns]
    case Append(ns, name, rows, counted) => ns in spaces && name in spaces[ns]
    case PurgeTable(ns, name) => ns in spaces && name in spaces[ns]
    case RenameTable(ns, name, to) => ns != to && ns in spaces && to in spaces && name in spaces[ns] && name !in spaces[to]
  }

  function Effect(spaces: Spaces, c: Call): Spaces
    requires Legal(spaces, c)
  {
    match c
    case ListNamespaces => spaces
    case CreateNamespace(ns) => spaces[ns := map[]]
    case DropNamespace(ns) => spaces - {ns}
    case ListTables(ns) => spaces
    case CreateTable(ns, name, meta) => spaces[ns := spaces[ns][name := meta]]
    case Append(ns, name, rows, counted) =>
      var meta := spaces[ns][name];
      spaces[ns := spaces[ns][name := meta.(rows := meta.rows + rows, counted := meta.counted + counted)]]
    case PurgeTable(ns, name) => spaces[ns := spaces[ns] - {name}]
    case RenameTable(ns, name, to) =>
      spaces[ns := spaces[ns] - {name}][to := spaces[to][name := spaces[ns][name]]]
  }

  /** The tables of a namespace; none when it does not exist. */
  function TablesIn(spaces: Spaces, ns: Namespace): Tables { if ns in spaces then spaces[ns] else map[] }

  // ---------------------------------------------------------------- faults

  /** `n` legal calls get through: none fails, or one fails later than that. */
  predicate Affords(healthy: Option<nat>, n: nat) { healthy.None? || n <= healthy.value }

  function Spend(healthy: Option<nat>, n: nat): Option<nat>
    requires Affords(healthy, n)
  {
    if healthy.None? then None else Some(healthy.value - n)
  }

  /** How many of `n` legal calls take effect: those before the failing one, and that one when only its answer is lost. */
  function Effective(healthy: Option<nat>, lost: bool, n: nat): (e: nat)
    ensures e <= n
  {
    if Affords(healthy, n) then n else healthy.value + if lost then 1 else 0
  }

  lemma SpendAgain(healthy: Option<nat>, lost: bool, a: nat, b: nat)
    requires Affords(healthy, a)
    ensures Affords(Spend(healthy, a), b) <==> Affords(healthy, a + b)
    ensures Affords(healthy, a + b) ==> Spend(Spend(healthy, a), b) == Spend(healthy, a + b)
    ensures Effective(healthy, lost, a + b) == a + Effective(Spend(healthy, a), lost, b)
  {
  }

  /** The catalog behind its client: after `healthy` more calls one fails, and may have taken effect all the same. */
  class IcebergCatalog {
    var spaces: Spaces
    var healthy: Option<nat>  // None: no call fails
    var lost: bool            // the failing call takes effect and only its answer is lost

    constructor (spaces: Spaces, healthy: Option<nat>, lost: bool)
      ensures this.spaces == spaces && this.healthy == healthy && this.lost == lost
    {
      this.spaces, this.healthy, this.lost := spaces, healthy, lost;
    }

    method Do(c: Call) returns (ok: bool)
      modifies this
      ensures lost == old(lost) && (ok <==> Legal(old(spaces), c) && Affords(old(healthy), 1))
      ensures ok ==> spaces == Effect(old(spaces), c) && healthy == Spend(old(healthy), 1)
      ensures !ok ==> spaces == if Legal(old(spaces), c) && lost then Effect(old(spaces), c) else old(spaces)
    {
      if !Legal(spaces, c) {
        return false;
      }
      if healthy == Some(0) {
        if lost { spaces := Effect(spaces, c); }
        return false;
      }
      spaces := Effect(spaces, c);
      healthy := if healthy.Some? then Some(healthy.value - 1) else None;
      ok := true;
    }
  }

  /** Listing the namespaces, and creating the one that is missing. */
  function EnsureCost(spaces: Spaces, ns: Namespace): nat { if ns in spaces then 1 else 2 }

  method EnsureNamespace(c: IcebergCatalog, ns: Namespace) returns (ok: bool)
    modifies c
    ensures c.lost == old(c.lost) && (ok <==> Affords(old(c.healthy), EnsureCost(old(c.spaces), ns)))
    ensures ok ==> c.healthy == Spend(old(c.healthy), EnsureCost(old(c.spaces), ns))
    ensures ok ==> c.spaces == old(c.spaces)[ns := TablesIn(old(c.spaces), ns)]
    ensures !ok ==> c.spaces == old(c.spaces) || c.spaces == old(c.spaces)[ns := TablesIn(old(c.spaces), ns)]
  {
    ok := c.Do(ListNamespaces);
    if !ok { return; }
    assert ns in c.spaces ==> c.spaces == c.spaces[ns := c.spaces[ns]];
    if ns !in c.spaces {
      ok := c.Do(CreateNamespace(ns));
    }
  }

  method PurgeOne(c: IcebergCatalog, ns: Namespace, name: string)
    requires c.healthy.None? && ns in c.spaces && name in c.spaces[ns]
    modifies c
    ensures c.healthy.None? && c.lost == old(c.lost) && c.spaces - {ns} == old(c.spaces) - {ns}
    ensures ns in c.spaces && c.spaces[ns] == old(c.spaces)[ns] - {name}
  {
    var ok := c.Do(PurgeTable(ns, name));
  }

  /** Cleanup, whose calls are taken to succeed: the namespace and everything in it goes, and nothing else. */
  method RemoveNamespace(c: IcebergCatalog, ns: Namespace)
    requires c.healthy.None?
    modifies c
    ensures c.healthy.None? && c.lost == old(c.lost) && c.spaces == old(c.spaces) - {ns}
  {
    var ok := c.Do(ListNamespaces);
    if ns !in c.spaces {
      return;
    }
    ok := c.Do(ListTables(ns));
    var todo := c.spaces[ns].Keys;
    while todo != {}
      invariant c.healthy.None? && c.lost == old(c.lost) && ns in c.spaces && todo == c.spaces[ns].Keys
      invariant c.spaces - {ns} == old(c.spaces) - {ns}
      decreases |todo|
    {
      var name :| name in todo;
      PurgeOne(c, ns, name);
      todo := todo - {name};
    }
    assert c.spaces[ns] == map[];
    ok := c.Do(DropNamespace(ns));
  }
}

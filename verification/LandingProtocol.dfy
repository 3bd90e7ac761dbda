/**
 The landing protocol as a state machine. Commits, peeks, per-table puts, acknowledgements and crashes happen in
 any order; the batch size may change with every restart. One consumer owns the slot.
 */
module LandingProtocol {
  import opened Landing

  /** What the consumer holds in memory: nothing, or a peeked batch and the tables still to be put. */
  datatype Consumer =
    | Idle
    | Uploading(upto: nat, rows: seq<Row>, at: Stamp, todo: seq<string>)

  /** One put that happened: the table's share of the transactions `from .. upto`. */
  datatype Put = Put(from: nat, upto: nat, table: string, at: Stamp)

  /** `puts` is a history variable: every put so far, crashed batches included. */
  datatype State = State(log: seq<Txn>, slot: nat, bucket: map<Key, seq<Envelope>>, consumer: Consumer, puts: seq<Put>)

  datatype Action =
    | Commit(txn: Txn)
    | Peek(limit: nat, at: Stamp)
    | PutNext
    | Ack
    | Crash

  const INIT := State([], 0, map[], Idle, [])

  /** One step; an action that is not enabled leaves the state alone. */
  function Apply(cfg: Settings, s: State, a: Action): State {
    match a
    case Commit(txn) => s.(log := s.log + [txn])
    case Peek(limit, at) =>
      if s.consumer.Idle? && s.slot <= |s.log| && Peeked(s.log[s.slot..], limit) != [] then
        var rows := Peeked(s.log[s.slot..], limit);
        s.(consumer := Uploading(s.slot + Consumed(s.log[s.slot..], limit), rows, at, Tables(cfg, rows)))
      else s
    case PutNext =>
      if s.consumer.Uploading? && s.consumer.todo != [] && s.consumer.rows != [] then
        var c := s.consumer;
        s.(bucket := s.bucket[KeyOf(c.rows, c.todo[0], c.at) := Envelopes(cfg, c.rows, c.todo[0], c.at)],
           consumer := c.(todo := c.todo[1..]),
           puts := s.puts + [Put(s.slot, c.upto, c.todo[0], c.at)])
      else s
    case Ack =>
      if s.consumer.Uploading? && s.consumer.todo == [] && s.slot <= |s.log| then
        s.(slot := s.slot + Consumed(s.log[s.slot..], |s.consumer.rows|), consumer := Idle)
      else s
    case Crash => s.(consumer := Idle)
  }

  function Run(cfg: Settings, s: State, actions: seq<Action>): State
    decreases |actions|
  {
    if actions == [] then s else Run(cfg, Apply(cfg, s, actions[0]), actions[1..])
  }

  predicate Stamped(actions: seq<Action>) {
    forall i :: 0 <= i < |actions| && actions[i].Peek? ==> StampText(actions[i].at)
  }

  // ---------------------------------------------------------------- the invariant

  function BatchOf(log: seq<Txn>, p: Put): seq<Row> {
    if p.from <= p.upto <= |log| then Rows(log[p.from..p.upto]) else []
  }

  /** `envelopes` are those of `rows` in `table`, up to the ingestion time. */
  ghost predicate Holds(cfg: Settings, envelopes: seq<Envelope>, rows: seq<Row>, table: string) {
    exists at: Stamp :: envelopes == Envelopes(cfg, rows, table, at)
  }

  ghost predicate GoodPut(cfg: Settings, log: seq<Txn>, slot: nat, bucket: map<Key, seq<Envelope>>, p: Put) {
    && p.from <= slot && p.from <= p.upto <= |log| && StampText(p.at)
    && BatchOf(log, p) != []
    && p.table in Tables(cfg, BatchOf(log, p))
    && KeyOf(BatchOf(log, p), p.table, p.at) in bucket
    && Holds(cfg, bucket[KeyOf(BatchOf(log, p), p.table, p.at)], BatchOf(log, p), p.table)
  }

  /** The row has been put: it belongs to the share of some table that was uploaded. */
  ghost predicate WasPut(cfg: Settings, s: State, r: Row) {
    exists p :: p in s.puts && r in BatchOf(s.log, p) && TableOf(cfg, r) == p.table
  }

  /** The put that wrote the object last stored under a key. */
  ghost predicate Explains(log: seq<Txn>, p: Put, key: Key) {
    BatchOf(log, p) != [] && KeyOf(BatchOf(log, p), p.table, p.at) == key
  }

  ghost predicate Explained(s: State, key: Key) {
    exists p :: p in s.puts && Explains(s.log, p, key)
  }

  ghost predicate GoodConsumer(cfg: Settings, s: State) {
    match s.consumer
    case Idle => true
    case Uploading(upto, rows, at, todo) =>
      && s.slot <= upto <= |s.log| && StampText(at)
      && rows != [] && rows == Rows(s.log[s.slot..upto])
      && (exists limit: nat, seen: nat :: s.slot <= seen <= |s.log| && rows == Peeked(s.log[s.slot..seen], limit))
      && (forall t :: t in todo ==> t in Tables(cfg, rows))
      && (forall t :: t in Tables(cfg, rows) && t !in todo ==> Put(s.slot, upto, t, at) in s.puts)
  }

  ghost predicate Inv(cfg: Settings, s: State) {
    && s.slot <= |s.log|
    && (forall p {:trigger GoodPut(cfg, s.log, s.slot, s.bucket, p)} ::
          p in s.puts ==> GoodPut(cfg, s.log, s.slot, s.bucket, p))
    && (forall k {:trigger Explained(s, k)} :: k in s.bucket ==> Explained(s, k))
    && (forall r {:trigger WasPut(cfg, s, r)} :: r in Rows(s.log[..s.slot]) ==> WasPut(cfg, s, r))
    && GoodConsumer(cfg, s)
  }

  // ---------------------------------------------------------------- every action keeps it

  lemma BatchStable(log: seq<Txn>, more: seq<Txn>, p: Put)
    requires p.from <= p.upto <= |log|
    ensures BatchOf(log + more, p) == BatchOf(log, p)
  {
    assert (log + more)[p.from..p.upto] == log[p.from..p.upto];
  }

  lemma CommitKeeps(cfg: Settings, s: State, txn: Txn)
    requires Inv(cfg, s)
    ensures Inv(cfg, Apply(cfg, s, Commit(txn)))
  {
    var t := Apply(cfg, s, Commit(txn));
    forall p | p in t.puts
      ensures GoodPut(cfg, t.log, t.slot, t.bucket, p) && BatchOf(t.log, p) == BatchOf(s.log, p)
    {
      assert GoodPut(cfg, s.log, s.slot, s.bucket, p);
      BatchStable(s.log, [txn], p);
    }
    forall k | k in t.bucket ensures Explained(t, k) {
      assert k in s.bucket ==> Explained(s, k);
      var p :| p in s.puts && Explains(s.log, p, k);
      assert Explains(t.log, p, k);
    }
    assert t.log[..t.slot] == s.log[..s.slot];
    forall r | r in Rows(t.log[..t.slot]) ensures WasPut(cfg, t, r) {
      assert WasPut(cfg, s, r);
    }
    if s.consumer.Uploading? {
      var c := s.consumer;
      assert t.log[t.slot..c.upto] == s.log[s.slot..c.upto];
      var limit: nat, seen: nat :| s.slot <= seen <= |s.log| && c.rows == Peeked(s.log[s.slot..seen], limit);
      assert t.log[t.slot..seen] == s.log[s.slot..seen];
    }
  }

  lemma BucketUntouched(cfg: Settings, s: State, t: State)
    requires Inv(cfg, s) && t.log == s.log && t.bucket == s.bucket && t.puts == s.puts
    ensures forall k {:trigger Explained(t, k)} :: k in t.bucket ==> Explained(t, k)
  {
    forall k | k in t.bucket ensures Explained(t, k) {
      assert Explained(s, k);
    }
  }

  lemma PeekKeeps(cfg: Settings, s: State, limit: nat, at: Stamp)
    requires Inv(cfg, s) && StampText(at)
    ensures Inv(cfg, Apply(cfg, s, Peek(limit, at)))
  {
    var t := Apply(cfg, s, Peek(limit, at));
    BucketUntouched(cfg, s, t);
    forall r | r in Rows(t.log[..t.slot]) ensures WasPut(cfg, t, r) {
      assert WasPut(cfg, s, r);
    }
    if t != s {
      var pending := s.log[s.slot..];
      var n := Consumed(pending, limit);
      assert pending[..n] == s.log[s.slot..s.slot + n];
      assert s.log[s.slot..|s.log|] == pending;
      assert t.consumer.rows == Peeked(s.log[s.slot..|s.log|], limit);
    }
  }

  lemma CrashKeeps(cfg: Settings, s: State)
    requires Inv(cfg, s)
    ensures Inv(cfg, Apply(cfg, s, Crash))
  {
    var t := Apply(cfg, s, Crash);
    BucketUntouched(cfg, s, t);
    forall r | r in Rows(t.log[..t.slot]) ensures WasPut(cfg, t, r) {
      assert WasPut(cfg, s, r);
    }
  }

  lemma RowFacts(cfg: Settings, log: seq<Txn>, a: nat, b: nat, r: Row)
    requires WellFormedLog(cfg, log) && a <= b <= |log| && r in Rows(log[a..b])
    ensures RowText(cfg, r)
  {
    RowsMember(log[a..b], r);
    var i :| 0 <= i < |log[a..b]| && r in log[a..b][i];
    var x :| 0 <= x < |log[a + i]| && log[a + i][x] == r;
  }

  /** Two attempted puts that share a key store the same changes. */
  lemma SharedKey(cfg: Settings, log: seq<Txn>, p: Put, q: Put)
    requires WellFormedLog(cfg, log)
    requires p.from <= p.upto <= |log| && q.from <= q.upto <= |log| && StampText(p.at) && StampText(q.at)
    requires BatchOf(log, p) != [] && BatchOf(log, q) != []
    requires p.table in Tables(cfg, BatchOf(log, p)) && q.table in Tables(cfg, BatchOf(log, q))
    requires KeyOf(BatchOf(log, p), p.table, p.at) == KeyOf(BatchOf(log, q), q.table, q.at)
    ensures p.table == q.table && BatchOf(log, p) == BatchOf(log, q)
  {
    SameEndsSameRows(cfg, log, p.from, p.upto, q.from, q.upto);
  }

  lemma EndFacts(cfg: Settings, log: seq<Txn>, p: Put)
    requires WellFormedLog(cfg, log) && p.from <= p.upto <= |log| && BatchOf(log, p) != []
    requires p.table in Tables(cfg, BatchOf(log, p))
    requires StampText(p.at)
    ensures GoodKey(KeyOf(BatchOf(log, p), p.table, p.at))
  {
    var r := BatchOf(log, p);
    RowFacts(cfg, log, p.from, p.upto, r[0]);
    RowFacts(cfg, log, p.from, p.upto, r[|r| - 1]);
    TablesExact(cfg, r);
    var x :| x in r && TableOf(cfg, x) == p.table;
    RowFacts(cfg, log, p.from, p.upto, x);
  }

  lemma PutKeeps(cfg: Settings, s: State)
    requires Inv(cfg, s) && WellFormedLog(cfg, s.log)
    ensures Inv(cfg, Apply(cfg, s, PutNext))
  {
    var t := Apply(cfg, s, PutNext);
    forall r | r in Rows(t.log[..t.slot]) ensures WasPut(cfg, t, r) {
      assert WasPut(cfg, s, r);
      var p :| p in s.puts && r in BatchOf(s.log, p) && TableOf(cfg, r) == p.table;
      assert p in t.puts;
    }
    if t != s {
      var c := s.consumer;
      var put := Put(s.slot, c.upto, c.todo[0], c.at);
      var key := KeyOf(c.rows, c.todo[0], c.at);
      assert BatchOf(s.log, put) == c.rows;
      forall p | p in t.puts ensures GoodPut(cfg, t.log, t.slot, t.bucket, p) {
        if p != put {
          assert p in s.puts && GoodPut(cfg, s.log, s.slot, s.bucket, p);
          if KeyOf(BatchOf(s.log, p), p.table, p.at) == key {
            SharedKey(cfg, s.log, p, put);
          }
        }
      }
      forall k | k in t.bucket ensures Explained(t, k) {
        if k == key {
          assert put in t.puts && Explains(t.log, put, k);
        } else {
          assert Explained(s, k);
          var p :| p in s.puts && Explains(s.log, p, k);
          assert p in t.puts;
        }
      }
      TodoShrinks(cfg, s);
    }
  }

  lemma TodoShrinks(cfg: Settings, s: State)
    requires Inv(cfg, s) && s.consumer.Uploading? && s.consumer.todo != []
    ensures GoodConsumer(cfg, Apply(cfg, s, PutNext))
  {
    var c := s.consumer;
    var t := Apply(cfg, s, PutNext);
    assert c.todo == [c.todo[0]] + c.todo[1..];
    forall u | u in Tables(cfg, c.rows) && u !in c.todo[1..] ensures Put(s.slot, c.upto, u, c.at) in t.puts {
      if u != c.todo[0] {
        assert Put(s.slot, c.upto, u, c.at) in s.puts;
      }
    }
    var limit: nat, seen: nat :| s.slot <= seen <= |s.log| && c.rows == Peeked(s.log[s.slot..seen], limit);
  }

  lemma TailSplits(log: seq<Txn>, a: nat, b: nat)
    requires a <= b <= |log|
    ensures log[a..] == log[a..b] + log[b..]
  {
  }

  /** What the slot moves over when a landed batch is acknowledged: exactly the landed rows. */
  lemma AckTakesBatch(cfg: Settings, s: State)
    requires Inv(cfg, s) && s.consumer.Uploading?
    ensures Peeked(s.log[s.slot..], |s.consumer.rows|) == s.consumer.rows
    ensures s.slot + Consumed(s.log[s.slot..], |s.consumer.rows|) <= |s.log|
  {
    var rows := s.consumer.rows;
    var limit: nat, seen: nat :| s.slot <= seen <= |s.log| && rows == Peeked(s.log[s.slot..seen], limit);
    hide Inv, GoodConsumer;
    TailSplits(s.log, s.slot, seen);
    AckMatchesPeek(s.log[s.slot..seen], s.log[seen..], limit);
  }

  lemma AckKeeps(cfg: Settings, s: State)
    requires Inv(cfg, s)
    ensures Inv(cfg, Apply(cfg, s, Ack))
  {
    var t := Apply(cfg, s, Ack);
    BucketUntouched(cfg, s, t);
    if s.consumer.Uploading? && s.consumer.todo == [] {
      var c := s.consumer;
      AckTakesBatch(cfg, s);
      RowsSplit(s.log, 0, s.slot, t.slot);
      assert s.log[0..s.slot] == s.log[..s.slot] && s.log[0..t.slot] == s.log[..t.slot];
      assert s.log[s.slot..t.slot] == s.log[s.slot..][..t.slot - s.slot];
      forall r | r in Rows(t.log[..t.slot]) ensures WasPut(cfg, t, r) {
        if r in Rows(s.log[..s.slot]) {
          assert WasPut(cfg, s, r);
        } else {
          TablesExact(cfg, c.rows);
          assert r in c.rows && TableOf(cfg, r) in Tables(cfg, c.rows);
          var p := Put(s.slot, c.upto, TableOf(cfg, r), c.at);
          assert p in t.puts && r in BatchOf(t.log, p);
        }
      }
      forall p | p in t.puts ensures GoodPut(cfg, t.log, t.slot, t.bucket, p) {
        assert GoodPut(cfg, s.log, s.slot, s.bucket, p);
      }
    } else {
      forall r | r in Rows(t.log[..t.slot]) ensures WasPut(cfg, t, r) {
        assert WasPut(cfg, s, r);
      }
    }
  }

  lemma StepKeeps(cfg: Settings, s: State, a: Action)
    requires Inv(cfg, s) && WellFormedLog(cfg, s.log)
    requires a.Peek? ==> StampText(a.at)
    ensures Inv(cfg, Apply(cfg, s, a))
  {
    match a
    case Commit(txn) => CommitKeeps(cfg, s, txn);
    case Peek(limit, at) => PeekKeeps(cfg, s, limit, at);
    case PutNext => PutKeeps(cfg, s);
    case Ack => AckKeeps(cfg, s);
    case Crash => CrashKeeps(cfg, s);
  }

  /** The log only grows, so what the environment promises of the final log held all along. */
  lemma {:induction false} LogGrows(cfg: Settings, s: State, actions: seq<Action>)
    ensures s.log <= Run(cfg, s, actions).log
    decreases |actions|
  {
    if actions != [] { LogGrows(cfg, Apply(cfg, s, actions[0]), actions[1..]); }
  }

  lemma PrefixWellFormed(cfg: Settings, log: seq<Txn>, all: seq<Txn>)
    requires log <= all && WellFormedLog(cfg, all)
    ensures WellFormedLog(cfg, log)
  {
    assert forall i :: 0 <= i < |log| ==> log[i] == all[i];
  }

  lemma {:induction false} RunKeeps(cfg: Settings, s: State, actions: seq<Action>)
    requires Inv(cfg, s) && Stamped(actions) && WellFormedLog(cfg, Run(cfg, s, actions).log)
    ensures Inv(cfg, Run(cfg, s, actions))
    decreases |actions|
  {
    if actions != [] {
      LogGrows(cfg, s, actions);
      PrefixWellFormed(cfg, s.log, Run(cfg, s, actions).log);
      StepKeeps(cfg, s, actions[0]);
      RunKeeps(cfg, Apply(cfg, s, actions[0]), actions[1..]);
    }
  }

  // ---------------------------------------------------------------- what a reader of the bucket may rely on

  ghost predicate Landed(s: State, id: EventId) {
    exists k, e :: k in s.bucket && e in s.bucket[k] && e.eventId == id
  }

  /** The row belongs to an attempted batch that reaches past the slot, and its table was put. */
  ghost predicate AttemptedAhead(cfg: Settings, s: State, r: Row) {
    exists p :: p in s.puts && s.slot < p.upto <= |s.log| && r in Rows(s.log[s.slot..p.upto]) && TableOf(cfg, r) == p.table
  }

  lemma PutRowsLand(cfg: Settings, s: State, p: Put, r: Row)
    requires Inv(cfg, s) && p in s.puts && r in BatchOf(s.log, p) && TableOf(cfg, r) == p.table
    ensures Landed(s, IdOf(cfg, r))
  {
    assert GoodPut(cfg, s.log, s.slot, s.bucket, p);
    var key := KeyOf(BatchOf(s.log, p), p.table, p.at);
    var at: Stamp :| s.bucket[key] == Envelopes(cfg, BatchOf(s.log, p), p.table, at);
    EnvelopesExact(cfg, BatchOf(s.log, p), p.table, at);
    assert EnvelopeOf(cfg, r, at) in s.bucket[key];
  }

  /** Every envelope is that of a committed row whose table's share was put. */
  lemma NoInvention(cfg: Settings, s: State, key: Key, e: Envelope) returns (p: Put, r: Row)
    requires Inv(cfg, s) && key in s.bucket && e in s.bucket[key]
    ensures p in s.puts && p.from <= s.slot && p.from <= p.upto <= |s.log|
    ensures r in BatchOf(s.log, p) && TableOf(cfg, r) == p.table
    ensures e.eventId == IdOf(cfg, r) && e.lsn == r.lsn && e.xid == r.xid && e.change == r.data
  {
    assert Explained(s, key);
    p :| p in s.puts && Explains(s.log, p, key);
    assert GoodPut(cfg, s.log, s.slot, s.bucket, p);
    var at: Stamp :| s.bucket[key] == Envelopes(cfg, BatchOf(s.log, p), p.table, at);
    EnvelopesExact(cfg, BatchOf(s.log, p), p.table, at);
    r :| r in BatchOf(s.log, p) && TableOf(cfg, r) == p.table && e == EnvelopeOf(cfg, r, at);
  }

  /** A put batch is a piece of the acknowledged log followed by a prefix of the pending log. */
  lemma BatchStraddles(cfg: Settings, s: State, p: Put, r: Row)
    requires Inv(cfg, s) && p in s.puts && r in BatchOf(s.log, p) && TableOf(cfg, r) == p.table
    ensures r in Rows(s.log[..s.slot]) || AttemptedAhead(cfg, s, r)
  {
    assert GoodPut(cfg, s.log, s.slot, s.bucket, p);
    if p.upto <= s.slot {
      RowsSplit(s.log, 0, p.from, p.upto);
      RowsSplit(s.log, 0, p.upto, s.slot);
      assert s.log[0..s.slot] == s.log[..s.slot];
    } else {
      RowsSplit(s.log, p.from, s.slot, p.upto);
      RowsSplit(s.log, 0, p.from, s.slot);
      assert s.log[0..s.slot] == s.log[..s.slot];
    }
  }

  lemma LandedExactly(cfg: Settings, s: State, id: EventId)
    requires Inv(cfg, s)
    ensures Landed(s, id) <==>
            exists r :: id == IdOf(cfg, r) && (r in Rows(s.log[..s.slot]) || AttemptedAhead(cfg, s, r))
  {
    if Landed(s, id) {
      var k, e :| k in s.bucket && e in s.bucket[k] && e.eventId == id;
      var p, r := NoInvention(cfg, s, k, e);
      BatchStraddles(cfg, s, p, r);
    }
    if r :| id == IdOf(cfg, r) && (r in Rows(s.log[..s.slot]) || AttemptedAhead(cfg, s, r)) {
      if r in Rows(s.log[..s.slot]) {
        assert WasPut(cfg, s, r);
        var p :| p in s.puts && r in BatchOf(s.log, p) && TableOf(cfg, r) == p.table;
        PutRowsLand(cfg, s, p, r);
      } else {
        var p :| p in s.puts && s.slot < p.upto <= |s.log| && r in Rows(s.log[s.slot..p.upto]) && TableOf(cfg, r) == p.table;
        assert GoodPut(cfg, s.log, s.slot, s.bucket, p);
        RowsSplit(s.log, p.from, s.slot, p.upto);
        PutRowsLand(cfg, s, p, r);
      }
    }
  }

  /**
   No loss and no invention, in every reachable state: the identifiers in the bucket are exactly those of the
   acknowledged rows and of the put shares of batches reaching past the slot, and such batches hold prefixes of the
   pending log.
   */
  lemma NoLossNoInvention(cfg: Settings, actions: seq<Action>)
    requires Stamped(actions) && WellFormedLog(cfg, Run(cfg, INIT, actions).log)
    ensures var s := Run(cfg, INIT, actions);
            && s.slot <= |s.log|
            && (forall r :: r in Rows(s.log[..s.slot]) ==> Landed(s, IdOf(cfg, r)))
            && (forall id :: Landed(s, id) <==>
                  exists r :: id == IdOf(cfg, r) && (r in Rows(s.log[..s.slot]) || AttemptedAhead(cfg, s, r)))
            && (forall p :: p in s.puts ==> p.from <= s.slot && p.upto <= |s.log|)
  {
    var s := Run(cfg, INIT, actions);
    assert Rows(INIT.log[..0]) == [];
    RunKeeps(cfg, INIT, actions);
    forall id ensures Landed(s, id) <==>
                  exists r :: id == IdOf(cfg, r) && (r in Rows(s.log[..s.slot]) || AttemptedAhead(cfg, s, r)) {
      LandedExactly(cfg, s, id);
    }
    assert forall p :: p in s.puts ==> GoodPut(cfg, s.log, s.slot, s.bucket, p);
  }

  /** In every reachable state the next acknowledgement gets back exactly the rows that were landed. */
  lemma MismatchUnreachable(cfg: Settings, actions: seq<Action>)
    requires Stamped(actions) && WellFormedLog(cfg, Run(cfg, INIT, actions).log)
    ensures var s := Run(cfg, INIT, actions);
            s.consumer.Uploading? ==> s.slot <= |s.log| && Peeked(s.log[s.slot..], |s.consumer.rows|) == s.consumer.rows
  {
    assert Rows(INIT.log[..0]) == [];
    RunKeeps(cfg, INIT, actions);
    if Run(cfg, INIT, actions).consumer.Uploading? {
      AckTakesBatch(cfg, Run(cfg, INIT, actions));
    }
  }

  // ---------------------------------------------------------------- printed keys and hashed texts

  lemma StoredKeyGood(cfg: Settings, s: State, k: Key)
    requires Inv(cfg, s) && WellFormedLog(cfg, s.log) && k in s.bucket
    ensures GoodKey(k)
  {
    assert Explained(s, k);
    var p :| p in s.puts && Explains(s.log, p, k);
    assert GoodPut(cfg, s.log, s.slot, s.bucket, p);
    EndFacts(cfg, s.log, p);
  }

  /** In every reachable state the object store keeps all objects apart: no two print the same key. */
  lemma PrintedKeysDiffer(cfg: Settings, actions: seq<Action>, k: Key, m: Key)
    requires Stamped(actions) && WellFormedLog(cfg, Run(cfg, INIT, actions).log)
    requires k in Run(cfg, INIT, actions).bucket && m in Run(cfg, INIT, actions).bucket
    requires KeyText(cfg.prefix, k) == KeyText(cfg.prefix, m)
    ensures k == m
  {
    assert Rows(INIT.log[..0]) == [];
    RunKeeps(cfg, INIT, actions);
    StoredKeyGood(cfg, Run(cfg, INIT, actions), k);
    StoredKeyGood(cfg, Run(cfg, INIT, actions), m);
    KeyInjective(cfg.prefix, k, m);
  }

  lemma LandedRow(cfg: Settings, s: State, id: EventId) returns (r: Row)
    requires Inv(cfg, s) && WellFormedLog(cfg, s.log) && Landed(s, id)
    ensures RowText(cfg, r) && id == IdOf(cfg, r)
  {
    var k, e :| k in s.bucket && e in s.bucket[k] && e.eventId == id;
    var p;
    p, r := NoInvention(cfg, s, k, e);
    RowFacts(cfg, s.log, p.from, p.upto, r);
  }

  /** In every reachable state the texts that are hashed into identifiers tell all landed changes apart. */
  lemma HashedTextsDiffer(cfg: Settings, actions: seq<Action>, a: EventId, b: EventId)
    requires Stamped(actions) && WellFormedLog(cfg, Run(cfg, INIT, actions).log)
    requires Landed(Run(cfg, INIT, actions), a) && Landed(Run(cfg, INIT, actions), b) && HashedText(a) == HashedText(b)
    ensures a == b
  {
    assert Rows(INIT.log[..0]) == [];
    RunKeeps(cfg, INIT, actions);
    var r := LandedRow(cfg, Run(cfg, INIT, actions), a);
    var q := LandedRow(cfg, Run(cfg, INIT, actions), b);
    EventIdInjective(cfg, r, q);
  }

  /** In every reachable state a put whose printed key is already in use stores the changes that are there. */
  lemma OverwriteIsBenign(cfg: Settings, actions: seq<Action>)
    requires Stamped(actions) && WellFormedLog(cfg, Run(cfg, INIT, actions).log)
    ensures var s := Run(cfg, INIT, actions);
            var c := s.consumer;
            c.Uploading? && c.todo != [] ==>
              c.rows != [] &&
              var key := KeyOf(c.rows, c.todo[0], c.at);
              forall k :: k in s.bucket && KeyText(cfg.prefix, k) == KeyText(cfg.prefix, key) ==>
                            k == key && Holds(cfg, s.bucket[k], c.rows, c.todo[0])
  {
    var s := Run(cfg, INIT, actions);
    assert Rows(INIT.log[..0]) == [];
    RunKeeps(cfg, INIT, actions);
    var c := s.consumer;
    if c.Uploading? && c.todo != [] {
      var put := Put(s.slot, c.upto, c.todo[0], c.at);
      assert BatchOf(s.log, put) == c.rows;
      EndFacts(cfg, s.log, put);
      var key := KeyOf(c.rows, c.todo[0], c.at);
      forall k | k in s.bucket && KeyText(cfg.prefix, k) == KeyText(cfg.prefix, key)
        ensures k == key && Holds(cfg, s.bucket[k], c.rows, c.todo[0])
      {
        StoredKeyGood(cfg, s, k);
        KeyInjective(cfg.prefix, k, key);
        assert Explained(s, key);
        var p :| p in s.puts && Explains(s.log, p, key);
        assert GoodPut(cfg, s.log, s.slot, s.bucket, p);
        SharedKey(cfg, s.log, p, put);
      }
    }
  }
}

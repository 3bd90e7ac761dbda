/** The smoke run end to end: generated frames become log rows, and draining the slot lands every one of them once. */
module Smoke {
  import opened Collections
  import opened Schema
  import opened Relational
  import opened Landing
  import opened LandingProtocol
  import LandingWriter
  import opened LiveWriter
  import opened Generator

  /** Each transaction of the log carries the row changes of one event, in order. */
  ghost predicate Carries(cfg: Settings, txn: Txn, changes: seq<Table>) {
    |txn| == |changes| && forall i :: 0 <= i < |txn| ==> TableOf(cfg, txn[i]) == Name(changes[i])
  }

  ghost predicate CarriesAll(cfg: Settings, log: seq<Txn>, changes: seq<seq<Table>>) {
    |log| == |changes| && forall i :: 0 <= i < |log| ==> Carries(cfg, log[i], changes[i])
  }

  function OfTable(cfg: Settings, t: Table): Row -> bool { (r: Row) => TableOf(cfg, r) == Name(t) }

  lemma {:induction false} TxnByTable(cfg: Settings, txn: Txn, changes: seq<Table>, t: Table)
    requires Carries(cfg, txn, changes)
    ensures |Filter(txn, OfTable(cfg, t))| == Occurrences(t)(changes)
  {
    if txn != [] {
      if Name(changes[0]) == Name(t) { NameInjective(changes[0], t); }
      TxnByTable(cfg, txn[1..], changes[1..], t);
    }
  }

  /** The rows of the log, in all and by table, are what the events changed. */
  lemma {:induction false} RowsAreChanges(cfg: Settings, log: seq<Txn>, changes: seq<seq<Table>>, t: Table)
    requires CarriesAll(cfg, log, changes)
    ensures |Rows(log)| == Sum(changes, SIZE)
    ensures |Filter(Rows(log), OfTable(cfg, t))| == Sum(changes, Occurrences(t))
  {
    if log != [] {
      assert Carries(cfg, log[0], changes[0]);
      RowsAreChanges(cfg, log[1..], changes[1..], t);
      FilterConcat(log[0], Rows(log[1..]), OfTable(cfg, t));
      TxnByTable(cfg, log[0], changes[0], t);
    }
  }

  // ---------------------------------------------------------------- deduplication by event identifier

  /** What a reader of the landing zone is left with after dropping repeated identifiers. */
  ghost function LandedIds(bucket: map<Key, seq<Envelope>>): set<EventId> {
    set k, e | k in bucket && e in bucket[k] :: e.eventId
  }

  ghost function IdsOf(cfg: Settings, rows: seq<Row>): set<EventId> { set r | r in rows :: IdOf(cfg, r) }

  lemma {:induction false} RowsDistinct(cfg: Settings, log: seq<Txn>)
    requires WellFormedLog(cfg, log)
    ensures Distinct(Rows(log))
  {
    if log != [] {
      PrefixOfLog(cfg, log);
      RowsDistinct(cfg, log[1..]);
      forall r | r in Rows(log[1..]) ensures r !in log[0] {
        RowsMember(log[1..], r);
        var i :| 0 <= i < |log[1..]| && r in log[1..][i];
        assert log[i + 1] == log[1..][i];
      }
      DistinctConcat(log[0], Rows(log[1..]));
    }
  }

  lemma DistinctConcat<T>(a: seq<T>, b: seq<T>)
    requires Distinct(a) && Distinct(b) && forall x :: x in b ==> x !in a
    ensures Distinct(a + b)
  {
    forall i, j | 0 <= i < j < |a + b| ensures (a + b)[i] != (a + b)[j] {
      if i < |a| <= j { assert b[j - |a|] in b; }
    }
  }

  lemma PrefixOfLog(cfg: Settings, log: seq<Txn>)
    requires WellFormedLog(cfg, log) && log != []
    ensures WellFormedLog(cfg, log[1..]) && Distinct(log[0])
  {
  }

  lemma {:induction false} IdsCounted(cfg: Settings, rows: seq<Row>)
    requires Distinct(rows)
    ensures |IdsOf(cfg, rows)| == |rows|
  {
    if rows != [] {
      IdsCounted(cfg, rows[1..]);
      assert IdsOf(cfg, rows) == {IdOf(cfg, rows[0])} + IdsOf(cfg, rows[1..]);
      forall r | r in rows[1..] ensures IdOf(cfg, r) != IdOf(cfg, rows[0]) { assert r != rows[0]; }
    }
  }

  /** Once nothing is pending, the identifiers in the bucket are those of the log, one for each row. */
  lemma DrainedExactly(cfg: Settings, actions: seq<Action>)
    requires Stamped(actions) && WellFormedLog(cfg, Run(cfg, INIT, actions).log)
    requires var s := Run(cfg, INIT, actions); s.slot <= |s.log| && Rows(s.log[s.slot..]) == []
    ensures var s := Run(cfg, INIT, actions);
            LandedIds(s.bucket) == IdsOf(cfg, Rows(s.log)) && |LandedIds(s.bucket)| == |Rows(s.log)|
  {
    var s := Run(cfg, INIT, actions);
    NoLossNoInvention(cfg, actions);
    RowsSplit(s.log, 0, s.slot, |s.log|);
    assert s.log[0..|s.log|] == s.log && s.log[0..s.slot] == s.log[..s.slot] && s.log[s.slot..|s.log|] == s.log[s.slot..];
    forall r | AttemptedAhead(cfg, s, r) ensures r in Rows(s.log) {
      var p :| p in s.puts && s.slot < p.upto <= |s.log| && r in Rows(s.log[s.slot..p.upto]);
      RowsSplit(s.log, s.slot, p.upto, |s.log|);
    }
    forall id ensures id in LandedIds(s.bucket) <==> id in IdsOf(cfg, Rows(s.log)) {
      assert id in LandedIds(s.bucket) <==> Landed(s, id);
    }
    RowsDistinct(cfg, s.log);
    IdsCounted(cfg, Rows(s.log));
  }

  /**
   `m` seconds of the generator, then one drain. Whatever was landed, crashed or retried before, the drain reports 56
   changes a second, and the landing zone then holds every change of the log exactly once after deduplication.
   */
  method DrainFrames(writer: LandingWriter.Writer, ghost history: seq<Action>, m: nat, limit: nat, at: Stamp)
    returns (landed: nat)
    requires writer.Valid() && StampText(at) && Stamped(history)
    requires writer.View(Idle) == Run(writer.cfg, INIT, history) && WellFormedLog(writer.cfg, writer.wal)
    requires CarriesAll(writer.cfg, writer.wal[writer.slot..], FrameChanges(EVENT_FRAME, 20 * m))
    modifies writer
    ensures writer.Valid() && writer.wal == old(writer.wal)
    ensures landed == 56 * m
    ensures forall t :: |Filter(Rows(old(writer.wal[writer.slot..])), OfTable(writer.cfg, t))| == FrameRows(t) * m
    ensures LandedIds(writer.bucket) == IdsOf(writer.cfg, Rows(writer.wal))
    ensures |LandedIds(writer.bucket)| == |Rows(writer.wal)|
  {
    ghost var trace;
    landed, trace := writer.Drain(limit, at);
    LandingWriter.RunConcat(writer.cfg, INIT, history, trace);
    DrainedExactly(writer.cfg, history + trace);
    WholeFrames(m);
    RowsAreChanges(writer.cfg, old(writer.wal[writer.slot..]), FrameChanges(EVENT_FRAME, 20 * m), Markets);
    forall t ensures |Filter(Rows(old(writer.wal[writer.slot..])), OfTable(writer.cfg, t))| == FrameRows(t) * m {
      RowsAreChanges(writer.cfg, old(writer.wal[writer.slot..]), FrameChanges(EVENT_FRAME, 20 * m), t);
    }
  }

  // ---------------------------------------------------------------- the objects a drain adds

  /** Puts made from a state on start at its slot or later, and the slot never goes back. */
  lemma {:induction false} LaterPuts(cfg: Settings, s: State, actions: seq<Action>)
    ensures s.slot <= Run(cfg, s, actions).slot
    ensures forall p :: p in s.puts ==> p in Run(cfg, s, actions).puts
    ensures forall p :: p in Run(cfg, s, actions).puts ==> p in s.puts || s.slot <= p.from
    decreases |actions|
  {
    if actions != [] {
      var t := Apply(cfg, s, actions[0]);
      LaterPuts(cfg, t, actions[1..]);
      assert s.slot <= t.slot && forall p :: p in s.puts ==> p in t.puts;
      assert forall p :: p in t.puts ==> p in s.puts || p.from == s.slot;
    }
  }

  /** No batch was left landed but unacknowledged. */
  ghost predicate Settled(puts: seq<Put>, slot: nat) { forall p :: p in puts ==> p.upto <= slot }

  /** The identifiers in the objects that were not there before. */
  ghost function NewIds(before: map<Key, seq<Envelope>>, after: map<Key, seq<Envelope>>): set<EventId> {
    set k, e | k in after && k !in before && e in after[k] :: e.eventId
  }

  /** Different events take different lines. */
  lemma LinePerId(before: map<Key, seq<Envelope>>, after: map<Key, seq<Envelope>>)
    ensures |NewIds(before, after)| <= |LandingWriter.NewLines(before, after)|
  {
    var lines := LandingWriter.NewLines(before, after);
    forall id | id in NewIds(before, after) ensures id in IdsOfLines(after, lines) {
      var k, e :| k in after && k !in before && e in after[k] && e.eventId == id;
      var i :| 0 <= i < |after[k]| && after[k][i] == e;
      assert (k, i) in lines;
    }
    LinesNameIds(after, lines);
    LandingWriter.SubsetSize(NewIds(before, after), IdsOfLines(after, lines));
  }

  ghost predicate InBucket(bucket: map<Key, seq<Envelope>>, l: (Key, nat)) { l.0 in bucket && l.1 < |bucket[l.0]| }

  ghost function IdsOfLines(bucket: map<Key, seq<Envelope>>, lines: set<(Key, nat)>): set<EventId> {
    set l | l in lines && InBucket(bucket, l) :: bucket[l.0][l.1].eventId
  }

  lemma {:induction false} LinesNameIds(bucket: map<Key, seq<Envelope>>, lines: set<(Key, nat)>)
    ensures |IdsOfLines(bucket, lines)| <= |lines|
    decreases |lines|
  {
    if l :| l in lines {
      var rest := lines - {l};
      LinesNameIds(bucket, rest);
      if InBucket(bucket, l) {
        assert IdsOfLines(bucket, lines) == IdsOfLines(bucket, rest) + {bucket[l.0][l.1].eventId};
      } else {
        assert IdsOfLines(bucket, lines) == IdsOfLines(bucket, rest);
      }
    } else {
      assert IdsOfLines(bucket, lines) == {};
    }
  }

  /** An old object holds no change from behind the old slot: its batch ended before it. */
  lemma OldObject(cfg: Settings, was: State, now: State, key: Key, e: Envelope)
    requires Inv(cfg, was) && Inv(cfg, now) && WellFormedLog(cfg, now.log) && now.log == was.log
    requires Settled(was.puts, was.slot) && key in was.bucket && key in now.bucket && e in now.bucket[key]
    requires forall p :: p in was.puts ==> p in now.puts
    ensures exists r :: r in Rows(now.log[..was.slot]) && e.eventId == IdOf(cfg, r)
  {
    assert Explained(was, key);
    var p :| p in was.puts && Explains(was.log, p, key);
    assert GoodPut(cfg, now.log, now.slot, now.bucket, p);
    EnvelopesOf(cfg, now, key, p, e);
    var r :| r in BatchOf(now.log, p) && e.eventId == IdOf(cfg, r);
    RowsSplit(now.log, 0, p.from, p.upto);
    RowsSplit(now.log, 0, p.upto, was.slot);
    assert now.log[0..was.slot] == now.log[..was.slot];
  }

  lemma EnvelopesOf(cfg: Settings, s: State, key: Key, p: Put, e: Envelope)
    requires key in s.bucket && e in s.bucket[key] && GoodPut(cfg, s.log, s.slot, s.bucket, p) && Explains(s.log, p, key)
    ensures exists r :: r in BatchOf(s.log, p) && e.eventId == IdOf(cfg, r)
  {
    var at: Stamp :| s.bucket[key] == Envelopes(cfg, BatchOf(s.log, p), p.table, at);
    EnvelopesExact(cfg, BatchOf(s.log, p), p.table, at);
    var r :| r in BatchOf(s.log, p) && e == EnvelopeOf(cfg, r, at);
  }

  /** A new object was put since, so it holds changes from behind the old slot. */
  lemma NewObject(cfg: Settings, was: State, now: State, key: Key, e: Envelope)
    requires Inv(cfg, was) && Inv(cfg, now) && now.log == was.log
    requires key !in was.bucket && key in now.bucket && e in now.bucket[key]
    requires forall p :: p in now.puts ==> p in was.puts || was.slot <= p.from
    ensures exists r :: r in Rows(now.log[was.slot..]) && e.eventId == IdOf(cfg, r)
  {
    assert Explained(now, key);
    var p :| p in now.puts && Explains(now.log, p, key);
    assert p in was.puts ==> GoodPut(cfg, was.log, was.slot, was.bucket, p);
    assert GoodPut(cfg, now.log, now.slot, now.bucket, p);
    EnvelopesOf(cfg, now, key, p, e);
    var r :| r in BatchOf(now.log, p) && e.eventId == IdOf(cfg, r);
    RowsSplit(now.log, was.slot, p.from, p.upto);
    RowsSplit(now.log, was.slot, p.upto, |now.log|);
    assert now.log[was.slot..|now.log|] == now.log[was.slot..];
  }

  /** A row is on one side of the slot only. */
  lemma OneSide(cfg: Settings, log: seq<Txn>, slot: nat, r: Row, q: Row)
    requires WellFormedLog(cfg, log) && slot <= |log| && r in Rows(log[..slot]) && q in Rows(log[slot..])
    ensures IdOf(cfg, r) != IdOf(cfg, q)
  {
    hide Rows;
    RowsDistinct(cfg, log);
    RowsSplit(log, 0, slot, |log|);
    assert log[0..|log|] == log && log[0..slot] == log[..slot] && log[slot..|log|] == log[slot..];
    var i :| 0 <= i < |Rows(log[..slot])| && Rows(log[..slot])[i] == r;
    var j :| 0 <= j < |Rows(log[slot..])| && Rows(log[slot..])[j] == q;
    assert Rows(log)[i] == r && Rows(log)[|Rows(log[..slot])| + j] == q;
  }

  /**
   When nothing was left half-landed before, the objects that a drain adds hold exactly the changes that were pending,
   told apart by their identifiers.
   */
  lemma NewObjectsExactly(cfg: Settings, history: seq<Action>, trace: seq<Action>)
    requires Stamped(history) && Stamped(trace)
    requires var was, now := Run(cfg, INIT, history), Run(cfg, INIT, history + trace);
             && WellFormedLog(cfg, now.log) && now.log == was.log && Settled(was.puts, was.slot)
             && now.slot <= |now.log| && Rows(now.log[now.slot..]) == [] && was.slot <= |was.log|
    ensures var was, now := Run(cfg, INIT, history), Run(cfg, INIT, history + trace);
            NewIds(was.bucket, now.bucket) == IdsOf(cfg, Rows(was.log[was.slot..])) &&
            |NewIds(was.bucket, now.bucket)| == |Rows(was.log[was.slot..])|
  {
    var was, now := Run(cfg, INIT, history), Run(cfg, INIT, history + trace);
    assert Rows(INIT.log[..0]) == [];
    RunKeeps(cfg, INIT, history);
    RunKeeps(cfg, INIT, history + trace);
    LandingWriter.RunConcat(cfg, INIT, history, trace);
    LaterPuts(cfg, was, trace);
    DrainedExactly(cfg, history + trace);
    forall id ensures id in NewIds(was.bucket, now.bucket) <==> id in IdsOf(cfg, Rows(now.log[was.slot..])) {
      if id in NewIds(was.bucket, now.bucket) {
        var k, e :| k in now.bucket && k !in was.bucket && e in now.bucket[k] && e.eventId == id;
        NewObject(cfg, was, now, k, e);
      }
      if id in IdsOf(cfg, Rows(now.log[was.slot..])) {
        PendingLands(cfg, was, now, id);
      }
    }
    TailDistinct(cfg, now.log, was.slot);
    IdsCounted(cfg, Rows(now.log[was.slot..]));
  }

  lemma PendingLands(cfg: Settings, was: State, now: State, id: EventId)
    requires Inv(cfg, was) && Inv(cfg, now) && WellFormedLog(cfg, now.log) && now.log == was.log
    requires Settled(was.puts, was.slot) && forall p :: p in was.puts ==> p in now.puts
    requires LandedIds(now.bucket) == IdsOf(cfg, Rows(now.log)) && id in IdsOf(cfg, Rows(now.log[was.slot..]))
    ensures id in NewIds(was.bucket, now.bucket)
  {
    var q :| q in Rows(now.log[was.slot..]) && id == IdOf(cfg, q);
    RowsSplit(now.log, 0, was.slot, |now.log|);
    assert now.log[0..|now.log|] == now.log && now.log[was.slot..|now.log|] == now.log[was.slot..];
    assert id in LandedIds(now.bucket);
    var k, e :| k in now.bucket && e in now.bucket[k] && e.eventId == id;
    if k in was.bucket {
      OldObject(cfg, was, now, k, e);
      var r :| r in Rows(now.log[..was.slot]) && id == IdOf(cfg, r);
      OneSide(cfg, now.log, was.slot, r, q);
      assert false;
    }
  }

  lemma DistinctEnd<T>(a: seq<T>, b: seq<T>)
    requires Distinct(a + b)
    ensures Distinct(b)
  {
    forall i, j | 0 <= i < j < |b| ensures b[i] != b[j] {
      assert (a + b)[|a| + i] == b[i] && (a + b)[|a| + j] == b[j];
    }
  }

  lemma TailDistinct(cfg: Settings, log: seq<Txn>, slot: nat)
    requires WellFormedLog(cfg, log) && slot <= |log|
    ensures Distinct(Rows(log[slot..]))
  {
    hide WellFormedLog, Rows;
    RowsDistinct(cfg, log);
    RowsSplit(log, 0, slot, |log|);
    assert log[0..|log|] == log && log[slot..|log|] == log[slot..];
    DistinctEnd(Rows(log[0..slot]), Rows(log[slot..]));
  }

  // ---------------------------------------------------------------- generate, then drain

  /** How the log prints the transactions of the generator; the decoder's output is the caller's. */
  function Rendered(render: (nat, seq<Table>) -> Txn, events: seq<seq<Table>>): (log: seq<Txn>)
    ensures |log| == |events| && forall i :: 0 <= i < |events| ==> log[i] == render(i, events[i])
  {
    seq(|events|, i requires 0 <= i < |events| => render(i, events[i]))
  }

  /** Adding transactions to a drained log makes exactly their rows pending. */
  lemma PendingAfter(log: seq<Txn>, slot: nat, added: seq<Txn>)
    requires slot <= |log| && Rows(log[slot..]) == []
    ensures Rows((log + added)[slot..]) == Rows(added)
  {
    assert (log + added)[slot..] == log[slot..] + added;
    RowsConcat(log[slot..], added);
  }

  lemma StampedCommits(history: seq<Action>, added: seq<Txn>)
    requires Stamped(history)
    ensures Stamped(history + LandingWriter.Commits(added))
  {
  }

  /** The landing half: what was generated is committed to the log and drained. */
  method CommitAndDrain(landing: LandingWriter.Writer, ghost history: seq<Action>, added: seq<Txn>, limit: nat, at: Stamp)
    returns (landed: nat)
    requires landing.Valid() && StampText(at) && Stamped(history) && Settled(landing.puts, landing.slot)
    requires landing.View(Idle) == Run(landing.cfg, INIT, history) && Rows(landing.wal[landing.slot..]) == []
    requires WellFormedLog(landing.cfg, landing.wal + added)
    modifies landing
    ensures landing.Valid() && landing.wal == old(landing.wal) + added && landed == |Rows(added)|
    ensures NewIds(old(landing.bucket), landing.bucket) == IdsOf(landing.cfg, Rows(added))
    ensures |NewIds(old(landing.bucket), landing.bucket)| == |Rows(added)|
    ensures |LandingWriter.NewLines(old(landing.bucket), landing.bucket)| == |Rows(added)|
  {
    hide Run, WellFormedLog, NewIds, IdsOf, LandingWriter.AddsLines;
    ghost var start, commits := landing.View(Idle), LandingWriter.Commits(added);
    LandingWriter.RunCommits(landing.cfg, start, added);
    LandingWriter.RunConcat(landing.cfg, INIT, history, commits);
    StampedCommits(history, added);
    PendingAfter(landing.wal, landing.slot, added);
    landing.CommitAll(added);
    ghost var before := landing.View(Idle);
    ghost var trace;
    landed, trace := landing.Drain(limit, at);
    LandingWriter.RunConcat(landing.cfg, INIT, history + commits, trace);
    NewObjectsExactly(landing.cfg, history + commits, trace);
    OneLineEach(before.bucket, landing.bucket, landed);
  }

  /** As many different events as lines were written: every new line is there, and no event twice. */
  lemma OneLineEach(before: map<Key, seq<Envelope>>, after: map<Key, seq<Envelope>>, n: nat)
    requires LandingWriter.AddsLines(before, after, n) && |NewIds(before, after)| == n
    ensures |LandingWriter.NewLines(before, after)| == n
  {
    hide NewIds;
    LinePerId(before, after);
    assert LandingWriter.NewLines(before, before) == {};
  }

  /**
   `m` seconds of the generator and one drain, from a landing zone with nothing pending and nothing half-landed: unless
   a UUID is taken, 56 changes a second are landed, the new objects hold that many lines, no event twice and exactly those
   of the log, and the fact tables have grown by the fixed mix.
   */
  method GenerateThenDrain(events: LiveEventWriter, landing: LandingWriter.Writer, chances: seq<Chance>, ghost m: nat,
                           render: (nat, seq<Table>) -> Txn, ghost history: seq<Action>, limit: nat, at: Stamp)
    returns (r: Option<LiveError>, landed: nat)
    requires events.Valid() && |chances| == 20 * m
    requires landing.Valid() && StampText(at) && Stamped(history) && Settled(landing.puts, landing.slot)
    requires landing.View(Idle) == Run(landing.cfg, INIT, history) && Rows(landing.wal[landing.slot..]) == []
    requires WellFormedLog(landing.cfg, landing.wal + Rendered(render, FrameChanges(EVENT_FRAME, 20 * m)))
    requires forall i, changes :: Carries(landing.cfg, render(i, changes), changes)
    modifies events, landing
    ensures events.Valid() && landing.Valid()
    ensures r.None? ==> landed == 56 * m == |NewIds(old(landing.bucket), landing.bucket)|
                              == |LandingWriter.NewLines(old(landing.bucket), landing.bucket)|
    ensures r.None? ==> NewIds(old(landing.bucket), landing.bucket) ==
                        IdsOf(landing.cfg, Rows(Rendered(render, FrameChanges(EVENT_FRAME, 20 * m))))
    ensures r.None? ==>
              var c := CountsOf(old(events.db));
              CountsOf(events.db) == Counts(c.txns + 6 * m, c.items + 12 * m, c.sessions + 8 * m, c.payments + 6 * m,
                                            c.risk + 6 * m, c.predictions + 2 * m)
  {
    hide Run, WellFormedLog, NewIds, IdsOf, InsertedBy, Emitted, Inv, LandingWriter.NewLines;
    landed := 0;
    var mark := |events.wal|;
    ghost var counts := CountsOf(events.db);
    var emitted;
    ghost var steps;
    r, emitted, steps := Generate(events, chances);
    if r.Some? { return; }
    var added := Rendered(render, events.wal[mark..]);
    FramesRendered(landing.cfg, render, m, added);
    landed := CommitAndDrain(landing, history, added, limit, at);
    FrameIsMixed();
    MixedInserts(EVENT_FRAME, m, counts);
  }

  lemma FramesRendered(cfg: Settings, render: (nat, seq<Table>) -> Txn, m: nat, added: seq<Txn>)
    requires added == Rendered(render, FrameChanges(EVENT_FRAME, 20 * m))
    requires forall i, changes :: Carries(cfg, render(i, changes), changes)
    ensures |Rows(added)| == 56 * m
  {
    WholeFrames(m);
    RowsAreChanges(cfg, added, FrameChanges(EVENT_FRAME, 20 * m), Markets);
  }
}

/** `LandingWriter` and the follow/drain loop around it, each call tied to runs of the landing protocol. */
module LandingWriter {
  import opened Collections
  import opened Landing
  import opened LandingProtocol

  datatype LandingError = EmptyBatch | RemoteDown | Mismatch

  /** What happens around one turn of the loop in `cdc.run`. */
  datatype Turn = Turn(
    stop: bool,            // a signal has arrived
    before: seq<Txn>,      // commits since the last turn
    at: Stamp,             // the clock, if a batch is landed
    during: seq<Txn>,      // commits between the peek and the acknowledgement
    healthy: nat,          // remote calls that succeed while landing
    idleExpired: bool)     // the idle limit is set and has been reached

  // ---------------------------------------------------------------- traces

  function Puts(n: nat): (r: seq<Action>)
    ensures |r| == n && forall i :: 0 <= i < n ==> r[i] == PutNext
  {
    seq(n, _ => PutNext)
  }

  function Commits(txns: seq<Txn>): (r: seq<Action>)
    ensures |r| == |txns| && forall i :: 0 <= i < |txns| ==> r[i] == Commit(txns[i])
  {
    seq(|txns|, i requires 0 <= i < |txns| => Commit(txns[i]))
  }

  /** The remote effects of landing one batch: all puts and the acknowledgement, or the puts before a failure. */
  function LandTrace(tables: nat, during: seq<Txn>, healthy: nat): seq<Action> {
    if tables < healthy then Puts(tables) + Commits(during) + [Ack] else Puts(healthy) + Commits(during) + [Crash]
  }

  lemma {:induction false} RunConcat(cfg: Settings, s: State, a: seq<Action>, b: seq<Action>)
    ensures Run(cfg, s, a + b) == Run(cfg, Run(cfg, s, a), b)
    decreases |a|
  {
    if a == [] {
      assert a + b == b;
    } else {
      assert (a + b)[1..] == a[1..] + b;
      RunConcat(cfg, Apply(cfg, s, a[0]), a[1..], b);
    }
  }

  lemma RunOne(cfg: Settings, s: State, a: Action)
    ensures Run(cfg, s, [a]) == Apply(cfg, s, a)
  {
    assert Run(cfg, s, [a]) == Run(cfg, Apply(cfg, s, a), [a][1..]);
  }

  lemma {:induction false} RunCommits(cfg: Settings, s: State, txns: seq<Txn>)
    ensures Run(cfg, s, Commits(txns)) == s.(log := s.log + txns)
    decreases |txns|
  {
    if txns == [] {
      assert s.log + txns == s.log;
    } else {
      assert Commits(txns)[1..] == Commits(txns[1..]);
      RunCommits(cfg, Apply(cfg, s, Commit(txns[0])), txns[1..]);
      assert (s.log + [txns[0]]) + txns[1..] == s.log + txns;
    }
  }

  lemma RunPutMore(cfg: Settings, s: State, k: nat)
    ensures Run(cfg, s, Puts(k + 1)) == Apply(cfg, Run(cfg, s, Puts(k)), PutNext)
  {
    assert Puts(k + 1) == Puts(k) + [PutNext];
    RunConcat(cfg, s, Puts(k), [PutNext]);
    RunOne(cfg, Run(cfg, s, Puts(k)), PutNext);
  }

  lemma RunPeekThen(cfg: Settings, s: State, limit: nat, at: Stamp, rest: seq<Action>)
    requires s.consumer.Idle? && s.slot <= |s.log| && Peeked(s.log[s.slot..], limit) != []
    ensures var rows := Peeked(s.log[s.slot..], limit);
            Run(cfg, s, [Peek(limit, at)] + rest) ==
            Run(cfg, s.(consumer := Uploading(s.slot + Consumed(s.log[s.slot..], limit), rows, at, Tables(cfg, rows))), rest)
  {
    hide Run, Peeked, Consumed, Tables;
    RunConcat(cfg, s, [Peek(limit, at)], rest);
    RunOne(cfg, s, Peek(limit, at));
  }

  lemma LandTraceEffect(cfg: Settings, start: State, n: nat, during: seq<Txn>, healthy: nat)
    ensures var mid := Run(cfg, start, Puts(Min(n, healthy)));
            Run(cfg, start, LandTrace(n, during, healthy)) ==
            Apply(cfg, mid.(log := mid.log + during), if n < healthy then Ack else Crash)
  {
    var puts := Puts(Min(n, healthy));
    var mid := Run(cfg, start, puts);
    var last := if n < healthy then Ack else Crash;
    RunConcat(cfg, start, puts + Commits(during), [last]);
    RunConcat(cfg, start, puts, Commits(during));
    RunCommits(cfg, mid, during);
    RunOne(cfg, mid.(log := mid.log + during), last);
  }

  lemma TotalGrows(log: seq<Txn>, all: seq<Txn>, a: nat, b: nat, c: nat)
    requires log <= all && a <= b <= |log| && b <= c <= |all|
    ensures |Rows(all[a..c])| == |Rows(log[a..b])| + |Rows(all[b..c])|
  {
    assert all[a..b] == log[a..b];
    RowsSplit(all, a, b, c);
  }

  lemma AckEffect(cfg: Settings, s: State)
    requires s.consumer.Uploading? && s.consumer.todo == [] && s.slot <= |s.log|
    ensures Apply(cfg, s, Ack) ==
            State(s.log, s.slot + Consumed(s.log[s.slot..], |s.consumer.rows|), s.bucket, Idle, s.puts)
  {
  }

  lemma {:induction false} RunPutsLog(cfg: Settings, s: State, k: nat)
    ensures Run(cfg, s, Puts(k)).log == s.log
  {
    if k == 0 {
      assert Puts(0) == [];
    } else {
      RunPutMore(cfg, s, k - 1);
      RunPutsLog(cfg, s, k - 1);
    }
  }

  /** Acknowledging a peeked batch moves the slot, and by exactly the rows of the batch. */
  lemma BatchAcknowledged(log: seq<Txn>, slot: nat, limit: nat, during: seq<Txn>)
    requires slot <= |log| && Peeked(log[slot..], limit) != []
    ensures var rows := Peeked(log[slot..], limit);
            var to := slot + Consumed(log[slot..] + during, |rows|);
            Peeked(log[slot..] + during, |rows|) == rows &&
            slot < to <= |log + during| && Rows((log + during)[slot..to]) == rows
  {
    var pending := log[slot..];
    var rows := Peeked(pending, limit);
    AckMatchesPeek(pending, during, limit);
    var k := Consumed(pending + during, |rows|);
    assert (log + during)[slot..] == pending + during;
    assert (log + during)[slot..slot + k] == (log + during)[slot..][..k];
    assert (pending + during)[..0] == [];
  }

  // ---------------------------------------------------------------- lines of the objects

  /** The lines of the objects that were not there before: object and position. */
  ghost function NewLines(before: map<Key, seq<Envelope>>, after: map<Key, seq<Envelope>>): set<(Key, nat)> {
    set k, i: nat | k in after && k !in before && i < |after[k]| :: (k, i)
  }

  /** Whatever bucket one compares with, there are at most `n` more new lines. */
  ghost predicate AddsLines(before: map<Key, seq<Envelope>>, after: map<Key, seq<Envelope>>, n: nat) {
    forall base :: |NewLines(base, after)| <= |NewLines(base, before)| + n
  }

  lemma AddsNothing(bucket: map<Key, seq<Envelope>>)
    ensures AddsLines(bucket, bucket, 0)
  {
  }

  lemma AddsThen(a: map<Key, seq<Envelope>>, b: map<Key, seq<Envelope>>, c: map<Key, seq<Envelope>>, m: nat, n: nat)
    requires AddsLines(a, b, m) && AddsLines(b, c, n)
    ensures AddsLines(a, c, m + n)
  {
    hide NewLines;
    forall base ensures |NewLines(base, c)| <= |NewLines(base, a)| + (m + n) {
      assert |NewLines(base, b)| <= |NewLines(base, a)| + m;
    }
  }

  /** A put adds no more lines than it writes; fewer when it overwrites. */
  lemma PutAdds(bucket: map<Key, seq<Envelope>>, key: Key, es: seq<Envelope>)
    ensures AddsLines(bucket, bucket[key := es], |es|)
  {
    forall base ensures |NewLines(base, bucket[key := es])| <= |NewLines(base, bucket)| + |es| {
      var written := set i: nat | i < |es| :: (key, i);
      LinesOf(key, |es|);
      assert NewLines(base, bucket[key := es]) <= NewLines(base, bucket) + written;
      SubsetSize(NewLines(base, bucket[key := es]), NewLines(base, bucket) + written);
    }
  }

  lemma {:induction false} LinesOf(key: Key, n: nat)
    ensures |set i: nat | i < n :: (key, i)| == n
  {
    if n > 0 {
      LinesOf(key, n - 1);
      assert (set i: nat | i < n :: (key, i)) == (set i: nat | i < n - 1 :: (key, i)) + {(key, n - 1)};
    }
  }

  lemma {:induction false} SubsetSize<T>(a: set<T>, b: set<T>)
    requires a <= b
    ensures |a| <= |b|
    decreases |a|
  {
    if x :| x in a { SubsetSize(a - {x}, b - {x}); }
  }

  // ---------------------------------------------------------------- the upload loop

  lemma NoPuts(cfg: Settings, s: State, rows: seq<Row>, at: Stamp, order: seq<string>)
    ensures Run(cfg, s, Puts(0)) == s && Sizes(cfg, rows, at, order[..0]) == 0 && order[0..] == order
  {
    assert Puts(0) == [];
  }

  lemma PutApplies(cfg: Settings, s: State, order: seq<string>, i: nat)
    requires i < |order| && s.consumer.Uploading? && s.consumer.todo == order[i..] && s.consumer.rows != []
    ensures var c := s.consumer;
            Apply(cfg, s, PutNext) ==
            State(s.log, s.slot, s.bucket[KeyOf(c.rows, order[i], c.at) := Envelopes(cfg, c.rows, order[i], c.at)],
                  c.(todo := order[i + 1..]), s.puts + [Put(s.slot, c.upto, order[i], c.at)])
  {
    hide KeyOf, Envelopes;
    assert order[i..][0] == order[i] && order[i..][1..] == order[i + 1..];
  }

  lemma SizesMore(cfg: Settings, rows: seq<Row>, at: Stamp, order: seq<string>, i: nat)
    requires i < |order|
    ensures Sizes(cfg, rows, at, order[..i + 1]) ==
            Sizes(cfg, rows, at, order[..i]) + |Envelopes(cfg, rows, order[i], at)|
  {
    assert order[..i + 1][..i] == order[..i];
  }

  // ---------------------------------------------------------------- draining

  lemma NothingYet(cfg: Settings, s: State)
    requires s.slot <= |s.log|
    ensures Run(cfg, s, []) == s && Rows(s.log[s.slot..s.slot]) == [] && AddsLines(s.bucket, s.bucket, 0)
  {
    assert s.log[s.slot..s.slot] == [];
  }

  /** Once a peek finds nothing, the rows behind the old slot are those the slot has passed since. */
  lemma AllPassed(log: seq<Txn>, first: nat, slot: nat, limit: nat)
    requires first <= slot <= |log| && Peeked(log[slot..], limit) == []
    ensures Rows(log[slot..]) == [] && Rows(log[first..]) == Rows(log[first..slot])
  {
    EmptyPeek(log[slot..], limit, 0);
    RowsSplit(log, first, slot, |log|);
    assert log[first..|log|] == log[first..] && log[slot..|log|] == log[slot..];
  }

  class Writer {
    const cfg: Settings

    // The remote state the two connections reach: the log and slot in PostgreSQL, the objects in the bucket.
    var wal: seq<Txn>
    var slot: nat
    var bucket: map<Key, seq<Envelope>>
    ghost var puts: seq<Put>

    constructor (cfg: Settings)
      ensures this.cfg == cfg && Valid() && View(Idle) == INIT
    {
      this.cfg := cfg;
      wal, slot, bucket, puts := [], 0, map[], [];
    }

    ghost predicate Valid()
      reads this
    {
      slot <= |wal|
    }

    ghost function View(c: Consumer): State
      reads this
    {
      State(wal, slot, bucket, c, puts)
    }

    method CommitAll(txns: seq<Txn>)
      requires Valid()
      modifies this`wal
      ensures Valid() && wal == old(wal) + txns
    {
      wal := wal + txns;
    }

    method PeekChanges(limit: nat) returns (rows: seq<Row>)
      requires Valid()
      ensures rows == Peeked(wal[slot..], limit)
    {
      rows := Peeked(wal[slot..], limit);
    }

    /** Getting consumes the changes before they are compared with what was landed. */
    method Acknowledge(expected: seq<Row>) returns (r: Result<nat, LandingError>)
      requires Valid()
      modifies this`slot
      ensures Valid() && slot == old(slot) + Consumed(wal[old(slot)..], |expected|)
      ensures r == if Peeked(wal[old(slot)..], |expected|) == expected then Success(|expected|) else Failure(Mismatch)
    {
      var acknowledged := Peeked(wal[slot..], |expected|);
      slot := slot + Consumed(wal[slot..], |expected|);
      if acknowledged != expected {
        r := Failure(Mismatch);
      } else {
        r := Success(|acknowledged|);
      }
    }

    /** The groups dictionary: its keys in insertion order, and the events under each. */
    method Group(rows: seq<Row>, at: Stamp) returns (order: seq<string>, groups: map<string, seq<Envelope>>)
      ensures order == Tables(cfg, rows)
      ensures forall t :: t in groups <==> t in order
      ensures forall t :: t in groups ==> groups[t] == Envelopes(cfg, rows, t, at)
    {
      order, groups := [], map[];
      for i := 0 to |rows|
        invariant order == Tables(cfg, rows[..i])
        invariant forall t :: t in groups <==> t in order
        invariant forall t :: t in groups ==> groups[t] == Envelopes(cfg, rows[..i], t, at)
      {
        var t := TableOf(cfg, rows[i]);
        assert rows[..i + 1][..i] == rows[..i];
        if t !in groups {
          NoEnvelopes(cfg, rows[..i], t, at);
          order := order + [t];
          groups := groups[t := []];
        }
        groups := groups[t := groups[t] + [EnvelopeOf(cfg, rows[i], at)]];
      }
      assert rows[..|rows|] == rows;
    }

    /** One put; an object that is there already is overwritten. */
    method PutObject(key: Key, es: seq<Envelope>, ghost put: Put)
      modifies this`bucket, this`puts
      ensures bucket == old(bucket)[key := es] && puts == old(puts) + [put]
      ensures AddsLines(old(bucket), bucket, |es|)
    {
      PutAdds(bucket, key, es);
      bucket := bucket[key := es];
      puts := puts + [put];
    }

    /** The upload loop: one put per group until all are done or the store fails. */
    method PutObjects(rows: seq<Row>, at: Stamp, ghost upto: nat, order: seq<string>,
                      groups: map<string, seq<Envelope>>, healthy: nat)
      returns (i: nat, landed: nat)
      requires rows != []
      requires forall t :: t in order ==> t in groups && groups[t] == Envelopes(cfg, rows, t, at)
      modifies this`bucket, this`puts
      ensures i == Min(|order|, healthy) && landed == Sizes(cfg, rows, at, order[..i])
      ensures View(Uploading(upto, rows, at, order[i..])) == Run(cfg, old(View(Uploading(upto, rows, at, order))), Puts(i))
      ensures AddsLines(old(bucket), bucket, landed)
    {
      hide AddsLines, Envelopes, Run, Puts, Apply, Sizes, KeyOf;
      i, landed := 0, 0;
      ghost var start := View(Uploading(upto, rows, at, order));
      AddsNothing(bucket);
      NoPuts(cfg, start, rows, at, order);
      while i < |order| && i < healthy
        invariant i <= |order| && i <= healthy
        invariant View(Uploading(upto, rows, at, order[i..])) == Run(cfg, start, Puts(i))
        invariant landed == Sizes(cfg, rows, at, order[..i])
        invariant AddsLines(start.bucket, bucket, landed)
      {
        ghost var before := View(Uploading(upto, rows, at, order[i..]));
        var t := order[i];
        assert t in order;
        RunPutMore(cfg, start, i);
        PutApplies(cfg, before, order, i);
        SizesMore(cfg, rows, at, order, i);
        PutObject(KeyOf(rows, t, at), groups[t], Put(slot, upto, t, at));
        AddsThen(start.bucket, before.bucket, bucket, landed, |groups[t]|);
        landed := landed + |groups[t]|;
        i := i + 1;
      }
    }

    method Upload(rows: seq<Row>, at: Stamp, ghost upto: nat, during: seq<Txn>, healthy: nat)
      returns (tables: nat, landed: nat)
      requires Valid() && rows != []
      modifies this`wal, this`bucket, this`puts
      ensures tables == |Tables(cfg, rows)| && (healthy >= tables ==> landed == |rows|)
      ensures wal == old(wal) + during && AddsLines(old(bucket), bucket, landed)
      ensures var order := Tables(cfg, rows);
              var k := Min(tables, healthy);
              View(Uploading(upto, rows, at, order[k..])) ==
              Run(cfg, old(View(Uploading(upto, rows, at, order))), Puts(k)).(log := old(wal) + during)
    {
      hide AddsLines;
      var order, groups := Group(rows, at);
      tables := |order|;
      var i;
      i, landed := PutObjects(rows, at, upto, order, groups, healthy);
      if i == tables {
        assert order[..i] == order;
        GroupsPartition(cfg, rows, at);
      }
      CommitAll(during);
    }

    /**
     One object per table is put before the slot moves. The returned count is that of the changes landed; the
     remote state ends where the protocol's puts, commits and acknowledgement (or crash) lead.
     */
    method LandBatch(rows: seq<Row>, at: Stamp, ghost upto: nat, during: seq<Txn>, healthy: nat)
      returns (r: Result<nat, LandingError>)
      requires Valid()
      modifies this
      ensures Valid()
      ensures rows == [] ==>
                r == Failure(EmptyBatch) && wal == old(wal) && slot == old(slot) && bucket == old(bucket) && puts == old(puts)
      ensures rows != [] ==>
                View(Idle) == Run(cfg, old(View(Uploading(upto, rows, at, Tables(cfg, rows)))),
                                  LandTrace(|Tables(cfg, rows)|, during, healthy))
      ensures rows != [] ==> wal == old(wal) + during
      ensures rows != [] ==>
                r == if healthy <= |Tables(cfg, rows)| then Failure(RemoteDown)
                     else if Peeked(old(wal[slot..]) + during, |rows|) == rows then Success(|rows|)
                     else Failure(Mismatch)
      ensures rows != [] && healthy <= |Tables(cfg, rows)| ==> slot == old(slot)
      ensures rows != [] && healthy > |Tables(cfg, rows)| ==>
                slot == old(slot) + Consumed(old(wal[slot..]) + during, |rows|)
      ensures r.Success? ==> AddsLines(old(bucket), bucket, r.value)
    {
      hide AddsLines;
      if rows == [] {
        return Failure(EmptyBatch);  // the first LSN is asked of an empty list, before any remote call
      }
      ghost var order := Tables(cfg, rows);
      LandTraceEffect(cfg, View(Uploading(upto, rows, at, order)), |order|, during, healthy);
      var tables, landed := Upload(rows, at, upto, during, healthy);
      assert wal[slot..] == old(wal[slot..]) + during && order[tables..] == [];
      RunPutsLog(cfg, old(View(Uploading(upto, rows, at, order))), Min(tables, healthy));
      if healthy <= tables {
        return Failure(RemoteDown);
      }
      AckEffect(cfg, View(Uploading(upto, rows, at, [])));
      var acknowledged := Acknowledge(rows);
      match acknowledged {
        case Success(_) => r := Success(landed);
        case Failure(e) => r := Failure(e);
      }
    }

    /**
     One turn of the loop. A batch peeked by this consumer is never refused by the acknowledgement, however many
     transactions commit in the meantime.
     */
    method Round(limit: nat, at: Stamp, during: seq<Txn>, healthy: nat)
      returns (r: Result<nat, LandingError>, ghost trace: seq<Action>)
      requires Valid()
      modifies this
      ensures Valid() && View(Idle) == Run(cfg, old(View(Idle)), trace)
      ensures StampText(at) ==> Stamped(trace)
      ensures wal == old(wal) || wal == old(wal) + during
      ensures old(slot) <= slot
      ensures r.Success? && r.value == 0 <==> Peeked(old(wal[slot..]), limit) == []
      ensures r == Success(0) ==> wal == old(wal) && slot == old(slot)
      ensures r.Success? ==> r.value == |Rows(wal[old(slot)..slot])|
      ensures r.Success? && r.value > 0 ==> slot > old(slot) && wal == old(wal) + during
      ensures r.Failure? ==> r == Failure(RemoteDown) && slot == old(slot)
      ensures healthy > |Tables(cfg, Peeked(old(wal[slot..]), limit))| ==> r.Success?
      ensures r.Success? ==> AddsLines(old(bucket), bucket, r.value)
    {
      hide Tables, Apply, AddsLines;
      var rows := PeekChanges(limit);
      if rows == [] {
        AddsNothing(bucket);
        trace := [];
        assert wal[slot..slot] == [];
        return Success(0), trace;
      }
      ghost var upto := slot + Consumed(wal[slot..], limit);
      ghost var rest := LandTrace(|Tables(cfg, rows)|, during, healthy);
      trace := [Peek(limit, at)] + rest;
      RunPeekThen(cfg, View(Idle), limit, at, rest);
      BatchAcknowledged(wal, slot, limit, during);
      r := LandBatch(rows, at, upto, during, healthy);
    }

    /** One pass of the loop body after whatever committed since the last one. */
    method Step(limit: nat, turn: Turn) returns (r: Result<nat, LandingError>, ghost trace: seq<Action>)
      requires Valid() && StampText(turn.at)
      modifies this
      ensures Valid() && View(Idle) == Run(cfg, old(View(Idle)), trace) && Stamped(trace)
      ensures old(wal) <= wal && old(slot) <= slot
      ensures r.Success? ==> r.value == |Rows(wal[old(slot)..slot])|
      ensures r.Failure? ==> r == Failure(RemoteDown)
    {
      CommitAll(turn.before);
      RunCommits(cfg, old(View(Idle)), turn.before);
      var landed, round := Round(limit, turn.at, turn.during, turn.healthy);
      RunConcat(cfg, old(View(Idle)), Commits(turn.before), round);
      return landed, Commits(turn.before) + round;
    }

    /** `cdc.run` over the first turns of any schedule: the total counts exactly the changes the slot passed. */
    method Follow(follow: bool, limit: nat, turns: seq<Turn>)
      returns (r: Result<nat, LandingError>, ghost trace: seq<Action>)
      requires Valid()
      requires forall i :: 0 <= i < |turns| ==> StampText(turns[i].at)
      modifies this
      ensures Valid() && View(Idle) == Run(cfg, old(View(Idle)), trace) && Stamped(trace)
      ensures old(slot) <= slot
      ensures r.Success? ==> r.value == |Rows(wal[old(slot)..slot])|
      ensures r.Failure? ==> r == Failure(RemoteDown)
    {
      var total := 0;
      trace := [];
      assert wal[slot..slot] == [];
      for i := 0 to |turns|
        invariant Valid() && View(Idle) == Run(cfg, old(View(Idle)), trace) && Stamped(trace)
        invariant old(slot) <= slot && total == |Rows(wal[old(slot)..slot])|
      {
        if turns[i].stop { break; }
        ghost var s0, wal0 := slot, wal;
        var landed, step := Step(limit, turns[i]);
        RunConcat(cfg, old(View(Idle)), trace, step);
        trace := trace + step;
        if landed.Failure? {
          return landed, trace;
        }
        TotalGrows(wal0, wal, old(slot), s0, slot);
        total := total + landed.value;
        if landed.value > 0 {
          continue;
        }
        if !follow || turns[i].idleExpired { break; }
      }
      return Success(total), trace;
    }

    /** A turn that nothing disturbs: it lands and acknowledges a batch, or finds nothing pending. */
    method CalmTurn(limit: nat, at: Stamp) returns (landed: nat, ghost step: seq<Action>)
      requires Valid() && StampText(at)
      modifies this
      ensures Valid() && wal == old(wal) && View(Idle) == Run(cfg, old(View(Idle)), step) && Stamped(step)
      ensures old(slot) <= slot
      ensures landed == |Rows(wal[old(slot)..slot])| && AddsLines(old(bucket), bucket, landed)
      ensures if landed == 0 then slot == old(slot) && Peeked(wal[slot..], limit) == [] else slot > old(slot)
    {
      hide Run, Rows, Tables, AddsLines;
      assert wal + [] == wal;
      var r;
      r, step := Round(limit, at, [], |Tables(cfg, Peeked(wal[slot..], limit))| + 1);
      landed := r.value;
    }

    /** Draining a log nothing is added to: every pending change is landed and acknowledged, then the loop ends. */
    method Drain(limit: nat, at: Stamp) returns (total: nat, ghost trace: seq<Action>)
      requires Valid() && StampText(at)
      modifies this
      ensures Valid() && wal == old(wal) && View(Idle) == Run(cfg, old(View(Idle)), trace) && Stamped(trace)
      ensures total == |Rows(old(wal[slot..]))| && Rows(wal[slot..]) == []
      ensures AddsLines(old(bucket), bucket, total)
    {
      hide AddsLines, Run, Rows, Peeked;
      total, trace := 0, [];
      ghost var start := View(Idle);
      NothingYet(cfg, start);
      while true
        invariant Valid() && wal == start.log && View(Idle) == Run(cfg, start, trace) && Stamped(trace)
        invariant start.slot <= slot && total == |Rows(wal[start.slot..slot])| && AddsLines(start.bucket, bucket, total)
        decreases |wal| - slot
      {
        ghost var before := View(Idle);
        var landed, step := CalmTurn(limit, at);
        RunConcat(cfg, start, trace, step);
        AddsThen(start.bucket, before.bucket, bucket, total, landed);
        trace := trace + step;
        if landed == 0 { break; }
        RowsSplit(wal, start.slot, before.slot, slot);
        total := total + landed;
      }
      AllPassed(wal, start.slot, slot, limit);
    }
  }
}

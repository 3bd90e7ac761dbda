/**
 The vocabulary of the CDC landing zone: the write-ahead log as the replication slot serves it,
 the envelope of one change, and the objects one batch is written to.
 */
module Landing {
  import opened Collections
  import opened Text

  /** One wal2json change, as the peek and get queries return it. */
  datatype Row = Row(lsn: string, xid: string, data: string)

  /** The changes of one committed transaction; it may hold none the decoder reports. */
  type Txn = seq<Row>

  /** The reading of the clock one call of `land_batch` takes. */
  datatype Stamp = Stamp(date: string, hour: string, iso: string)

  /** The settings in force, with the JSON parser as a parameter: the table field of a change, if any. */
  datatype Settings = Settings(database: string, prefix: string, tableField: string -> Option<string>)

  /** What an event identifier is the SHA-256 of; `HashedText` prints it and `EventIdInjective` reads it back. */
  datatype EventId = EventId(database: string, lsn: string, xid: string, data: string)

  datatype Envelope = Envelope(eventId: EventId, ingestedAt: string, database: string,
                               lsn: string, xid: string, change: string)

  /** What an object key spells out; `KeyText` prints it and `KeyInjective` reads it back. */
  datatype Key = Key(table: string, date: string, hour: string, first: string, last: string)

  // ---------------------------------------------------------------- the slot

  /** All changes of a stretch of the log, in commit order. */
  function Rows(log: seq<Txn>): seq<Row> {
    if log == [] then [] else log[0] + Rows(log[1..])
  }

  /**
   How many pending transactions one call of the slot functions reads: the row limit is looked at only
   where a transaction ends, and a limit of zero is no limit.
   */
  function ConsumedFrom(pending: seq<Txn>, limit: nat, got: nat): (n: nat)
    ensures n <= |pending|
  {
    if pending == [] then 0
    else
      var now := got + |pending[0]|;
      if limit != 0 && limit <= now then 1 else 1 + ConsumedFrom(pending[1..], limit, now)
  }

  function Consumed(pending: seq<Txn>, limit: nat): (n: nat)
    ensures n <= |pending|
  {
    ConsumedFrom(pending, limit, 0)
  }

  /** The rows one call of the slot functions returns. */
  function Peeked(pending: seq<Txn>, limit: nat): seq<Row> {
    Rows(pending[..Consumed(pending, limit)])
  }

  // ---------------------------------------------------------------- one batch

  function TableOf(cfg: Settings, row: Row): string {
    match cfg.tableField(row.data)
    case Some(t) => t
    case None => "_metadata"
  }

  function IdOf(cfg: Settings, row: Row): EventId {
    EventId(cfg.database, row.lsn, row.xid, row.data)
  }

  /** The text whose digest identifies the event. */
  function HashedText(id: EventId): string {
    id.database + "|" + (id.lsn + "|" + (id.xid + "|" + id.data))
  }

  function EnvelopeOf(cfg: Settings, row: Row, at: Stamp): Envelope {
    Envelope(IdOf(cfg, row), at.iso, cfg.database, row.lsn, row.xid, row.data)
  }

  /** The tables of a batch in the order they are first met: the order of the groups dictionary. */
  function Tables(cfg: Settings, rows: seq<Row>): seq<string> {
    if rows == [] then []
    else
      var before := Tables(cfg, rows[..|rows| - 1]);
      var t := TableOf(cfg, rows[|rows| - 1]);
      if t in before then before else before + [t]
  }

  /** The envelopes of the changes of one table, in log order. */
  function Envelopes(cfg: Settings, rows: seq<Row>, table: string, at: Stamp): seq<Envelope> {
    if rows == [] then []
    else
      var last := rows[|rows| - 1];
      Envelopes(cfg, rows[..|rows| - 1], table, at) +
      (if TableOf(cfg, last) == table then [EnvelopeOf(cfg, last, at)] else [])
  }

  function Dashed(lsn: string): (s: string)
    ensures |s| == |lsn|
    ensures forall i :: 0 <= i < |lsn| ==> s[i] == if lsn[i] == '/' then '-' else lsn[i]
  {
    if lsn == [] then [] else [if lsn[0] == '/' then '-' else lsn[0]] + Dashed(lsn[1..])
  }

  /** The object that takes one table's share of a batch. */
  function KeyOf(rows: seq<Row>, table: string, at: Stamp): Key
    requires rows != []
  {
    Key(table, at.date, at.hour, rows[0].lsn, rows[|rows| - 1].lsn)
  }

  /** The key as the object store sees it. */
  function KeyText(prefix: string, k: Key): string {
    prefix + "/" + (k.table + "/" + ("ingest_date=" + (k.date + "/" + ("hour=" + (k.hour + "/" +
    ("batch-" + (Dashed(k.first) + "-" + (Dashed(k.last) + ".jsonl.gz"))))))))
  }

  // ---------------------------------------------------------------- what the environment promises

  /** An LSN is printed as two slash-free, dash-free halves around one slash. */
  predicate LsnText(s: string) {
    exists i :: 0 <= i < |s| && s[i] == '/' && '-' !in s && '/' !in s[..i] && '/' !in s[i + 1..] && '|' !in s
  }

  predicate RowText(cfg: Settings, row: Row) {
    LsnText(row.lsn) && '|' !in row.xid && '/' !in TableOf(cfg, row)
  }

  predicate StampText(at: Stamp) { '/' !in at.date && '/' !in at.hour }

  /** Rows differ pairwise, LSNs differ between transactions; nothing is said of their order. */
  ghost predicate WellFormedLog(cfg: Settings, log: seq<Txn>) {
    && (forall i, x :: 0 <= i < |log| && 0 <= x < |log[i]| ==> RowText(cfg, log[i][x]))
    && (forall i, j, x, y :: 0 <= i < j < |log| && 0 <= x < |log[i]| && 0 <= y < |log[j]|
                             ==> log[i][x].lsn != log[j][y].lsn)
    && (forall i :: 0 <= i < |log| ==> Distinct(log[i]))
  }

  // ---------------------------------------------------------------- rows of a stretch of the log

  lemma {:induction false} RowsConcat(a: seq<Txn>, b: seq<Txn>)
    ensures Rows(a + b) == Rows(a) + Rows(b)
  {
    if a == [] {
      assert a + b == b;
    } else {
      assert (a + b)[1..] == a[1..] + b;
      RowsConcat(a[1..], b);
    }
  }

  lemma RowsSplit(log: seq<Txn>, i: nat, j: nat, k: nat)
    requires i <= j <= k <= |log|
    ensures Rows(log[i..k]) == Rows(log[i..j]) + Rows(log[j..k])
  {
    assert log[i..k] == log[i..j] + log[j..k];
    RowsConcat(log[i..j], log[j..k]);
  }

  lemma RowsSnoc(log: seq<Txn>)
    requires log != []
    ensures Rows(log) == Rows(log[..|log| - 1]) + log[|log| - 1]
  {
    var n := |log| - 1;
    assert log == log[..n] + [log[n]];
    RowsConcat(log[..n], [log[n]]);
    assert Rows([log[n]]) == log[n] + Rows([]);
  }

  /** Every row of a stretch sits in one of its transactions, and the other way round. */
  lemma {:induction false} RowsMember(log: seq<Txn>, r: Row)
    ensures r in Rows(log) <==> exists i :: 0 <= i < |log| && r in log[i]
  {
    if log != [] {
      RowsMember(log[1..], r);
      assert log == [log[0]] + log[1..];
      if r in Rows(log[1..]) {
        var i :| 0 <= i < |log[1..]| && r in log[1..][i];
        assert r in log[i + 1];
      }
      if exists i :: 0 <= i < |log| && r in log[i] {
        var i :| 0 <= i < |log| && r in log[i];
        if i > 0 { assert r in log[1..][i - 1]; }
      }
    }
  }

  lemma {:induction false} RowsEmpty(log: seq<Txn>)
    ensures Rows(log) == [] <==> forall i :: 0 <= i < |log| ==> log[i] == []
  {
    if log != [] {
      RowsEmpty(log[1..]);
      assert forall i :: 1 <= i < |log| ==> log[i] == log[1..][i - 1];
    }
  }

  /** The first row of a stretch opens its first non-empty transaction. */
  lemma {:induction false} FirstRow(log: seq<Txn>) returns (f: nat)
    requires Rows(log) != []
    ensures f < |log| && log[f] != [] && Rows(log)[0] == log[f][0]
    ensures Rows(log) == Rows(log[f..])
  {
    if log[0] != [] {
      f := 0;
      assert log[0..] == log;
    } else {
      var g := FirstRow(log[1..]);
      f := g + 1;
      assert log[f..] == log[1..][g..];
    }
  }

  /** The last row of a stretch closes its last non-empty transaction. */
  lemma {:induction false} LastRow(log: seq<Txn>) returns (l: nat)
    requires Rows(log) != []
    ensures l < |log| && log[l] != [] && Rows(log)[|Rows(log)| - 1] == log[l][|log[l]| - 1]
    ensures Rows(log) == Rows(log[..l + 1])
  {
    var n := |log| - 1;
    RowsSnoc(log);
    if log[n] != [] {
      l := n;
      assert log[..n + 1] == log;
    } else {
      l := LastRow(log[..n]);
      assert log[..n][..l + 1] == log[..l + 1];
    }
  }

  // ---------------------------------------------------------------- the acknowledgement

  lemma {:induction false} GetMatches(pending: seq<Txn>, more: seq<Txn>, limit: nat, got: nat, total: nat)
    requires got < total == got + |Rows(pending[..ConsumedFrom(pending, limit, got)])|
    ensures var m := ConsumedFrom(pending + more, total, got);
            m <= ConsumedFrom(pending, limit, got) &&
            Rows((pending + more)[..m]) == Rows(pending[..ConsumedFrom(pending, limit, got)])
  {
    var n := ConsumedFrom(pending, limit, got);
    if pending == [] {
      assert false;
    } else {
      var all := pending + more;
      assert all[0] == pending[0] && all[1..] == pending[1..] + more;
      var now := got + |pending[0]|;
      assert pending[..n] == [pending[0]] + pending[1..][..n - 1];
      RowsConcat([pending[0]], pending[1..][..n - 1]);
      assert Rows([pending[0]]) == pending[0];
      var m := ConsumedFrom(all, total, got);
      assert all[..m] == [pending[0]] + all[1..][..m - 1];
      RowsConcat([pending[0]], all[1..][..m - 1]);
      if now < total {
        GetMatches(pending[1..], more, limit, now, total);
      } else {
        assert m == 1 && all[1..][..0] == [];
      }
    }
  }

  /**
   Getting as many changes as were peeked returns exactly the peeked changes, whatever the batch size was and
   whatever committed in between.
   */
  lemma AckMatchesPeek(pending: seq<Txn>, more: seq<Txn>, limit: nat)
    requires Peeked(pending, limit) != []
    ensures Peeked(pending + more, |Peeked(pending, limit)|) == Peeked(pending, limit)
    ensures Consumed(pending + more, |Peeked(pending, limit)|) <= Consumed(pending, limit)
  {
    GetMatches(pending, more, limit, 0, |Peeked(pending, limit)|);
  }

  /** A peek comes back empty only when nothing at all is pending. */
  lemma {:induction false} EmptyPeek(pending: seq<Txn>, limit: nat, got: nat)
    requires limit == 0 || got < limit
    ensures Rows(pending[..ConsumedFrom(pending, limit, got)]) == [] <==> Rows(pending) == []
  {
    if pending != [] {
      var n := ConsumedFrom(pending, limit, got);
      assert pending[..n] == [pending[0]] + pending[1..][..n - 1];
      RowsConcat([pending[0]], pending[1..][..n - 1]);
      assert Rows([pending[0]]) == pending[0];
      assert pending == [pending[0]] + pending[1..];
      if pending[0] == [] {
        EmptyPeek(pending[1..], limit, got);
      }
    }
  }

  // ---------------------------------------------------------------- keys and identifiers

  lemma LsnHalves(s: string) returns (hi: string, lo: string)
    requires LsnText(s)
    ensures s == hi + "/" + lo && Dashed(s) == hi + "-" + lo
    ensures '-' !in hi && '-' !in lo
  {
    hide Dashed;
    var i :| 0 <= i < |s| && s[i] == '/' && '-' !in s && '/' !in s[..i] && '/' !in s[i + 1..] && '|' !in s;
    hi, lo := s[..i], s[i + 1..];
    assert s == hi + "/" + lo;
    DashedHalves(hi, lo);
  }

  lemma DashedHalves(hi: string, lo: string)
    requires '/' !in hi && '/' !in lo
    ensures Dashed(hi + "/" + lo) == hi + "-" + lo
  {
    DashedConcat(hi + "/", lo);
    DashedConcat(hi, "/");
    DashedSame(hi);
    DashedSame(lo);
  }

  lemma {:induction false} DashedConcat(a: string, b: string)
    ensures Dashed(a + b) == Dashed(a) + Dashed(b)
  {
    if a == [] {
      assert a + b == b;
    } else {
      assert a + b == [a[0]] + (a[1..] + b);
      DashedConcat(a[1..], b);
    }
  }

  lemma {:induction false} DashedSame(s: string)
    requires '/' !in s
    ensures Dashed(s) == s
  {
    if s != [] { DashedSame(s[1..]); }
  }

  lemma Regroup(hi: string, lo: string, rest: string)
    ensures (hi + "-" + lo) + rest == hi + "-" + (lo + rest)
  {
  }

  lemma HalvesUnique(fh: string, fl: string, lh: string, ll: string,
                     gh: string, gl: string, mh: string, ml: string)
    requires '-' !in fh && '-' !in fl && '-' !in lh && '-' !in gh && '-' !in gl && '-' !in mh
    requires (fh + "-" + fl) + "-" + ((lh + "-" + ll) + ".jsonl.gz") ==
             (gh + "-" + gl) + "-" + ((mh + "-" + ml) + ".jsonl.gz")
    ensures fh == gh && fl == gl && lh == mh && ll == ml
  {
    var lx, mx := (lh + "-" + ll) + ".jsonl.gz", (mh + "-" + ml) + ".jsonl.gz";
    Regroup(fh, fl, "-" + lx);
    Regroup(gh, gl, "-" + mx);
    assert (fh + "-" + fl) + "-" + lx == (fh + "-" + fl) + ("-" + lx);
    assert (gh + "-" + gl) + "-" + mx == (gh + "-" + gl) + ("-" + mx);
    SplitUnique(fh, fl + ("-" + lx), gh, gl + ("-" + mx), '-');
    assert fl + ("-" + lx) == fl + "-" + lx && gl + ("-" + mx) == gl + "-" + mx;
    SplitUnique(fl, lx, gl, mx, '-');
    Regroup(lh, ll, ".jsonl.gz");
    Regroup(mh, ml, ".jsonl.gz");
    SplitUnique(lh, ll + ".jsonl.gz", mh, ml + ".jsonl.gz", '-');
    DropSuffix(ll, ml, ".jsonl.gz");
  }

  /** The tail of an object key names both LSNs of its batch. */
  lemma BatchNameInjective(f: string, l: string, g: string, m: string)
    requires LsnText(f) && LsnText(l) && LsnText(g) && LsnText(m)
    requires Dashed(f) + "-" + (Dashed(l) + ".jsonl.gz") == Dashed(g) + "-" + (Dashed(m) + ".jsonl.gz")
    ensures f == g && l == m
  {
    var fh, fl := LsnHalves(f);
    var lh, ll := LsnHalves(l);
    var gh, gl := LsnHalves(g);
    var mh, ml := LsnHalves(m);
    HalvesUnique(fh, fl, lh, ll, gh, gl, mh, ml);
  }

  predicate GoodKey(k: Key) {
    '/' !in k.table && '/' !in k.date && '/' !in k.hour && LsnText(k.first) && LsnText(k.last)
  }

  /** Two shares collide in the store only when table, date, hour and both LSNs agree. */
  lemma KeyInjective(prefix: string, k: Key, m: Key)
    requires GoodKey(k) && GoodKey(m) && KeyText(prefix, k) == KeyText(prefix, m)
    ensures k == m
  {
    var fx := Dashed(k.first) + "-" + (Dashed(k.last) + ".jsonl.gz");
    var gx := Dashed(m.first) + "-" + (Dashed(m.last) + ".jsonl.gz");
    var hx, hy := k.hour + "/" + ("batch-" + fx), m.hour + "/" + ("batch-" + gx);
    var dx, dy := k.date + "/" + ("hour=" + hx), m.date + "/" + ("hour=" + hy);
    DropPrefix(prefix + "/", k.table + "/" + ("ingest_date=" + dx), m.table + "/" + ("ingest_date=" + dy));
    SplitUnique(k.table, "ingest_date=" + dx, m.table, "ingest_date=" + dy, '/');
    DropPrefix("ingest_date=", dx, dy);
    SplitUnique(k.date, "hour=" + hx, m.date, "hour=" + hy, '/');
    DropPrefix("hour=", hx, hy);
    SplitUnique(k.hour, "batch-" + fx, m.hour, "batch-" + gx, '/');
    DropPrefix("batch-", fx, gx);
    BatchNameInjective(k.first, k.last, m.first, m.last);
  }

  /** Event identifiers tell any two changes apart, so deduplicating on them loses nothing. */
  lemma EventIdInjective(cfg: Settings, r: Row, q: Row)
    requires RowText(cfg, r) && RowText(cfg, q)
    requires HashedText(IdOf(cfg, r)) == HashedText(IdOf(cfg, q))
    ensures r == q
  {
    var rx, qx := r.xid + "|" + r.data, q.xid + "|" + q.data;
    DropPrefix(cfg.database + "|", r.lsn + "|" + rx, q.lsn + "|" + qx);
    SplitUnique(r.lsn, rx, q.lsn, qx, '|');
    SplitUnique(r.xid, r.data, q.xid, q.data, '|');
  }

  /**
   Overwrites are benign: two batches of whole transactions with the same first and the same last LSN hold the
   same changes, even when one of them was peeked from a longer log.
   */
  lemma SameEndsSameRows(cfg: Settings, log: seq<Txn>, a: nat, b: nat, c: nat, d: nat)
    requires WellFormedLog(cfg, log) && a <= b <= |log| && c <= d <= |log|
    requires var r := Rows(log[a..b]); var q := Rows(log[c..d]);
             r != [] && q != [] && r[0].lsn == q[0].lsn && r[|r| - 1].lsn == q[|q| - 1].lsn
    ensures Rows(log[a..b]) == Rows(log[c..d])
  {
    hide Rows, WellFormedLog;
    var f, l := Core(log, a, b);
    var g, m := Core(log, c, d);
    SameCore(cfg, log, f, l, g, m);
  }

  lemma SameCore(cfg: Settings, log: seq<Txn>, f: nat, l: nat, g: nat, m: nat)
    requires WellFormedLog(cfg, log) && f < |log| && l < |log| && g < |log| && m < |log|
    requires log[f] != [] && log[l] != [] && log[g] != [] && log[m] != []
    requires log[f][0].lsn == log[g][0].lsn && log[l][|log[l]| - 1].lsn == log[m][|log[m]| - 1].lsn
    ensures f == g && l == m
  {
    LsnNamesTxn(cfg, log, f, 0, g, 0);
    LsnNamesTxn(cfg, log, l, |log[l]| - 1, m, |log[m]| - 1);
  }

  lemma LsnNamesTxn(cfg: Settings, log: seq<Txn>, i: nat, x: nat, j: nat, y: nat)
    requires WellFormedLog(cfg, log) && i < |log| && j < |log| && x < |log[i]| && y < |log[j]|
    requires log[i][x].lsn == log[j][y].lsn
    ensures i == j
  {
  }

  /** The non-empty core of a stretch: where its first and its last row come from. */
  lemma Core(log: seq<Txn>, a: nat, b: nat) returns (f: nat, l: nat)
    requires a <= b <= |log| && Rows(log[a..b]) != []
    ensures a <= f <= l < b && log[f] != [] && log[l] != []
    ensures Rows(log[a..b])[0] == log[f][0]
    ensures Rows(log[a..b])[|Rows(log[a..b])| - 1] == log[l][|log[l]| - 1]
    ensures Rows(log[a..b]) == Rows(log[f..l + 1])
  {
    hide Rows;
    var i := FirstRow(log[a..b]);
    f := a + i;
    assert log[a..b][i..] == log[f..b];
    var j := LastRow(log[f..b]);
    l := f + j;
    SliceOfSlice(log, f, b, j + 1);
  }

  lemma SliceOfSlice<T>(s: seq<T>, f: nat, b: nat, n: nat)
    requires f <= b <= |s| && f + n <= b
    ensures s[f..b][..n] == s[f..f + n]
  {
  }

  // ---------------------------------------------------------------- the partition by table

  lemma {:induction false} TablesExact(cfg: Settings, rows: seq<Row>)
    ensures Distinct(Tables(cfg, rows))
    ensures forall t :: t in Tables(cfg, rows) <==> exists r :: r in rows && TableOf(cfg, r) == t
  {
    if rows != [] {
      var n := |rows| - 1;
      TablesExact(cfg, rows[..n]);
      assert rows == rows[..n] + [rows[n]];
      forall t ensures t in Tables(cfg, rows) <==> exists r :: r in rows && TableOf(cfg, r) == t {
        if t in Tables(cfg, rows) {
          if t in Tables(cfg, rows[..n]) {
            var r :| r in rows[..n] && TableOf(cfg, r) == t;
            assert r in rows;
          } else {
            assert rows[n] in rows;
          }
        }
        if r :| r in rows && TableOf(cfg, r) == t {
          assert r in rows[..n] || r == rows[n];
        }
      }
    }
  }

  /** An object holds exactly the changes of its table: one envelope each, nothing else. */
  lemma {:induction false} EnvelopesExact(cfg: Settings, rows: seq<Row>, table: string, at: Stamp)
    ensures forall e :: e in Envelopes(cfg, rows, table, at)
              <==> exists r :: r in rows && TableOf(cfg, r) == table && e == EnvelopeOf(cfg, r, at)
  {
    if rows != [] {
      var n := |rows| - 1;
      EnvelopesExact(cfg, rows[..n], table, at);
      assert rows == rows[..n] + [rows[n]];
      forall e ensures e in Envelopes(cfg, rows, table, at)
                 <==> exists r :: r in rows && TableOf(cfg, r) == table && e == EnvelopeOf(cfg, r, at)
      {
        if e in Envelopes(cfg, rows, table, at) {
          if e in Envelopes(cfg, rows[..n], table, at) {
            var r :| r in rows[..n] && TableOf(cfg, r) == table && e == EnvelopeOf(cfg, r, at);
            assert r in rows;
          } else {
            assert rows[n] in rows;
          }
        }
        if r :| r in rows && TableOf(cfg, r) == table && e == EnvelopeOf(cfg, r, at) {
          assert r in rows[..n] || r == rows[n];
        }
      }
    }
  }

  /** Total size of the groups named in `order`. */
  function Sizes(cfg: Settings, rows: seq<Row>, at: Stamp, order: seq<string>): nat {
    if order == [] then 0
    else Sizes(cfg, rows, at, order[..|order| - 1]) + |Envelopes(cfg, rows, order[|order| - 1], at)|
  }

  lemma {:induction false} SizesOneMore(cfg: Settings, rows: seq<Row>, at: Stamp, order: seq<string>)
    requires rows != [] && Distinct(order)
    ensures Sizes(cfg, rows, at, order) ==
            Sizes(cfg, rows[..|rows| - 1], at, order) +
            if TableOf(cfg, rows[|rows| - 1]) in order then 1 else 0
  {
    if order != [] {
      var n := |order| - 1;
      assert order == order[..n] + [order[n]];
      SizesOneMore(cfg, rows, at, order[..n]);
    }
  }

  /** The groups partition the batch: `land_batch` returns the number of rows it was given. */
  lemma {:induction false} GroupsPartition(cfg: Settings, rows: seq<Row>, at: Stamp)
    ensures Sizes(cfg, rows, at, Tables(cfg, rows)) == |rows|
  {
    if rows != [] {
      var n := |rows| - 1;
      var before := Tables(cfg, rows[..n]);
      var t := TableOf(cfg, rows[n]);
      GroupsPartition(cfg, rows[..n], at);
      TablesExact(cfg, rows);
      SizesOneMore(cfg, rows, at, Tables(cfg, rows));
      if t !in before {
        assert (before + [t])[..|before|] == before;
        NoEnvelopes(cfg, rows[..n], t, at);
        TablesExact(cfg, rows[..n]);
      }
    }
  }

  lemma {:induction false} NoEnvelopes(cfg: Settings, rows: seq<Row>, table: string, at: Stamp)
    requires table !in Tables(cfg, rows)
    ensures Envelopes(cfg, rows, table, at) == []
  {
    if rows != [] { NoEnvelopes(cfg, rows[..|rows| - 1], table, at); }
  }
}

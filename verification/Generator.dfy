/** `generator.run`: the endless event frame, and what a number of whole frames writes. */
module Generator {
  import opened Collections
  import opened Schema
  import opened Relational
  import opened LiveRuns
  import opened LiveWriter

  const EVENT_FRAME: seq<Event> :=
    [Purchase, BuyerSession, PaymentUpdate, BuyerSession, RiskPrediction, Purchase, BuyerSession, StatusUpdate,
     BuyerSession, Purchase, PaymentUpdate, BuyerSession, Purchase, BuyerSession, RiskPrediction, BuyerSession,
     Purchase, PaymentUpdate, BuyerSession, Purchase]

  /** What the generator has left behind: the log, the row counts, and whether something is remembered. */
  datatype Progress = Progress(wal: seq<seq<Table>>, counts: Counts, remembers: bool)

  ghost function ProgressOf(writer: LiveEventWriter): Progress
    reads writer
  {
    Progress(writer.wal, CountsOf(writer.db), writer.recent != [])
  }

  /** `n` events of the frame lead from `start` to `now`. */
  ghost predicate Progressed(frame: seq<Event>, start: Progress, now: Progress, n: nat)
    requires frame != []
  {
    && now.wal == start.wal + FrameChanges(frame, n) && now.counts == InsertedBy(frame, start.counts, n)
    && (n > 0 ==> now.remembers)
  }

  lemma ProgressStep(frame: seq<Event>, start: Progress, now: Progress, n: nat, next: Progress)
    requires frame != [] && Progressed(frame, start, now, n) && next.remembers
    requires var e := FrameEvent(frame, n);
             next.wal == now.wal + [EventChanges(e)] && next.counts == AddCounts(now.counts, Inserted(e))
    ensures Progressed(frame, start, next, n + 1)
  {
    OneMoreChange(frame, n);
  }

  /** The event number `i` of a frame repeated without end. */
  function FrameEvent(frame: seq<Event>, i: nat): Event
    requires frame != []
  {
    frame[i % |frame|]
  }

  /** The row changes of the first `n` events of the endless frame. */
  function FrameChanges(frame: seq<Event>, n: nat): (r: seq<seq<Table>>)
    requires frame != []
    ensures |r| == n && forall i :: 0 <= i < n ==> r[i] == EventChanges(FrameEvent(frame, i))
  {
    seq(n, i requires 0 <= i => EventChanges(FrameEvent(frame, i)))
  }

  /** Row counts after the first `n` events, from `base`. */
  function InsertedBy(frame: seq<Event>, base: Counts, n: nat): Counts
    requires frame != []
  {
    if n == 0 then base else AddCounts(InsertedBy(frame, base, n - 1), Inserted(FrameEvent(frame, n - 1)))
  }

  /** How often an event occurs among the first `n`. */
  function Emitted(frame: seq<Event>, n: nat, e: Event): nat
    requires frame != []
  {
    if n == 0 then 0 else Emitted(frame, n - 1, e) + if FrameEvent(frame, n - 1) == e then 1 else 0
  }

  /** The counter of `run` holds how often each event was emitted. */
  ghost predicate CountsEmitted(frame: seq<Event>, counts: map<Event, nat>, n: nat)
    requires frame != []
  {
    forall e :: (if e in counts then counts[e] else 0) == Emitted(frame, n, e)
  }

  lemma OneMoreChange(frame: seq<Event>, n: nat)
    requires frame != []
    ensures FrameChanges(frame, n + 1) == FrameChanges(frame, n) + [EventChanges(FrameEvent(frame, n))]
  {
  }

  lemma OneMoreEmitted(frame: seq<Event>, n: nat)
    requires frame != []
    ensures forall e :: Emitted(frame, n + 1, e) == Emitted(frame, n, e) + if e == FrameEvent(frame, n) then 1 else 0
  {
  }

  function Count(counts: map<Event, nat>, e: Event): map<Event, nat> {
    counts[e := (if e in counts then counts[e] else 0) + 1]
  }

  lemma OneMoreCounted(frame: seq<Event>, n: nat, counts: map<Event, nat>)
    requires frame != [] && CountsEmitted(frame, counts, n)
    ensures CountsEmitted(frame, Count(counts, FrameEvent(frame, n)), n + 1)
  {
  }

  /** One turn of the loop: event number `n` of the endless frame. */
  method EmitNext(writer: LiveEventWriter, n: nat, c: Chance, ghost start: Progress)
    returns (r: Option<LiveError>, ghost steps: seq<Step>)
    requires writer.Valid() && Progressed(EVENT_FRAME, start, ProgressOf(writer), n)
    modifies writer
    ensures writer.Valid() && writer.seed == old(writer.seed) && (r.Some? ==> r.value == UniqueViolation)
    ensures r.None? ==> Progressed(EVENT_FRAME, start, ProgressOf(writer), n + 1)
    ensures Leads(old(writer.db), old(writer.clock), steps, writer.db, writer.clock)
  {
    hide Leads;
    ghost var before := ProgressOf(writer);
    r, steps := writer.Emit(FrameEvent(EVENT_FRAME, n), c);
    if r.None? {
      ProgressStep(EVENT_FRAME, start, before, n, ProgressOf(writer));
    }
  }

  /**
   The loop of `generator.run` over as many events as it gets to emit; the frame starts with a purchase. Whether it gets
   through or stops at a taken UUID, the database is where a run of enabled steps leads.
   */
  method Generate(writer: LiveEventWriter, chances: seq<Chance>)
    returns (r: Option<LiveError>, counts: map<Event, nat>, ghost steps: seq<Step>)
    requires writer.Valid()
    modifies writer
    ensures writer.Valid() && writer.seed == old(writer.seed)
    ensures r.Some? ==> r.value == UniqueViolation
    ensures r.None? ==> writer.wal == old(writer.wal) + FrameChanges(EVENT_FRAME, |chances|)
    ensures r.None? ==> CountsOf(writer.db) == InsertedBy(EVENT_FRAME, CountsOf(old(writer.db)), |chances|)
    ensures r.None? ==> CountsEmitted(EVENT_FRAME, counts, |chances|)
    ensures Leads(old(writer.db), old(writer.clock), steps, writer.db, writer.clock)
  {
    hide Leads;
    counts, steps := map[], [];
    ghost var start, db, clock := ProgressOf(writer), writer.db, writer.clock;
    assert Progressed(EVENT_FRAME, start, start, 0);
    LeadsNowhere(db, clock);
    for sequence := 0 to |chances|
      invariant writer.Valid() && writer.seed == old(writer.seed)
      invariant Progressed(EVENT_FRAME, start, ProgressOf(writer), sequence)
      invariant CountsEmitted(EVENT_FRAME, counts, sequence)
      invariant Leads(db, clock, steps, writer.db, writer.clock)
    {
      var event := FrameEvent(EVENT_FRAME, sequence);
      ghost var mid, now := writer.db, writer.clock;
      ghost var more;
      r, more := EmitNext(writer, sequence, chances[sequence], start);
      LeadsThen(db, clock, steps, mid, now, more, writer.db, writer.clock);
      steps := steps + more;
      if r.Some? {
        return;
      }
      OneMoreCounted(EVENT_FRAME, sequence, counts);
      counts := Count(counts, event);
    }
    r := None;
  }

  // ---------------------------------------------------------------- the fixed mix of a frame

  /** How often an event is one of these. */
  function Among(events: seq<Event>, e: Event): nat {
    if events == [] then 0 else (if events[0] == e then 1 else 0) + Among(events[1..], e)
  }

  lemma AmongCons(a: Event, s: seq<Event>, e: Event)
    ensures Among([a] + s, e) == (if a == e then 1 else 0) + Among(s, e)
  {
    assert ([a] + s)[1..] == s;
  }

  lemma AmongFive(a: Event, b: Event, c: Event, d: Event, x: Event, e: Event)
    ensures Among([a, b, c, d, x], e) ==
            (if a == e then 1 else 0) + (if b == e then 1 else 0) + (if c == e then 1 else 0) + (if d == e then 1 else 0) +
            (if x == e then 1 else 0)
  {
    AmongCons(a, [b, c, d, x], e);
    AmongCons(b, [c, d, x], e);
    AmongCons(c, [d, x], e);
    AmongCons(d, [x], e);
    AmongCons(x, [], e);
    assert [a] + [b, c, d, x] == [a, b, c, d, x] && [b] + [c, d, x] == [b, c, d, x] && [c] + [d, x] == [c, d, x];
    assert [d] + [x] == [d, x] && [x] + [] == [x];
  }

  lemma {:induction false} AmongConcat(s: seq<Event>, t: seq<Event>, e: Event)
    ensures Among(s + t, e) == Among(s, e) + Among(t, e)
  {
    if s == [] {
      assert s + t == t;
    } else {
      assert (s + t)[1..] == s[1..] + t;
      AmongConcat(s[1..], t, e);
    }
  }

  lemma {:induction false} EmittedIsAmong(frame: seq<Event>, m: nat, k: nat, e: Event)
    requires frame != [] && k <= |frame|
    ensures Emitted(frame, |frame| * m + k, e) == Emitted(frame, |frame| * m, e) + Among(frame[..k], e)
  {
    if k > 0 {
      EmittedIsAmong(frame, m, k - 1, e);
      assert frame[..k] == frame[..k - 1] + [frame[k - 1]];
      AmongConcat(frame[..k - 1], [frame[k - 1]], e);
      PositionInFrame(|frame|, m, k - 1);
      assert FrameEvent(frame, |frame| * m + k - 1) == frame[k - 1];
    }
  }

  lemma Multiple(size: nat, a: int)
    ensures a >= 1 ==> size * a >= size
    ensures a <= -1 ==> size * a <= 0 - size
  {
    assert size * a == size + size * (a - 1) && size * a == 0 - size + size * (a + 1);
  }

  lemma PositionInFrame(size: nat, m: nat, k: nat)
    requires k < size
    ensures size * m + k >= 0 && (size * m + k) % size == k
  {
    assert size * m >= 0;
    Divided(size * m + k, size, m, k, (size * m + k) / size, (size * m + k) % size);
  }

  lemma Divided(x: nat, size: nat, m: int, k: nat, q: int, r: nat)
    requires x == size * m + k == size * q + r && k < size && r < size
    ensures r == k
  {
    assert size * (q - m) == size * q - size * m;
    Multiple(size, q - m);
  }

  lemma {:induction false} EmittedByFrames(frame: seq<Event>, m: nat, e: Event)
    requires frame != []
    ensures Emitted(frame, |frame| * m, e) == m * Among(frame, e)
  {
    if m > 0 {
      EmittedByFrames(frame, m - 1, e);
      EmittedIsAmong(frame, m - 1, |frame|, e);
      assert frame[..|frame|] == frame;
      OneTimesMore(m - 1, |frame|);
      OneMore(m - 1, Among(frame, e));
    }
  }

  lemma OneTimesMore(n: int, size: int)
    ensures size * (n + 1) == size * n + size
  {
  }

  /** The mix of one frame. */
  function PerFrame(e: Event): nat {
    match e
    case Purchase => 6
    case BuyerSession => 8
    case PaymentUpdate => 3
    case RiskPrediction => 2
    case StatusUpdate => 1
  }

  lemma FrameParts()
    ensures |EVENT_FRAME| == 20
    ensures EVENT_FRAME == [Purchase, BuyerSession, PaymentUpdate, BuyerSession, RiskPrediction] +
                           [Purchase, BuyerSession, StatusUpdate, BuyerSession, Purchase] +
                           [PaymentUpdate, BuyerSession, Purchase, BuyerSession, RiskPrediction] +
                           [BuyerSession, Purchase, PaymentUpdate, BuyerSession, Purchase]
  {
  }

  lemma FrameMix(e: Event)
    ensures |EVENT_FRAME| == 20 && Among(EVENT_FRAME, e) == PerFrame(e)
  {
    FrameParts();
    MixOf(EVENT_FRAME, e);
  }

  lemma MixOf(frame: seq<Event>, e: Event)
    requires frame == [Purchase, BuyerSession, PaymentUpdate, BuyerSession, RiskPrediction] +
                      [Purchase, BuyerSession, StatusUpdate, BuyerSession, Purchase] +
                      [PaymentUpdate, BuyerSession, Purchase, BuyerSession, RiskPrediction] +
                      [BuyerSession, Purchase, PaymentUpdate, BuyerSession, Purchase]
    ensures Among(frame, e) == PerFrame(e)
  {
    FourParts([Purchase, BuyerSession, PaymentUpdate, BuyerSession, RiskPrediction],
              [Purchase, BuyerSession, StatusUpdate, BuyerSession, Purchase],
              [PaymentUpdate, BuyerSession, Purchase, BuyerSession, RiskPrediction],
              [BuyerSession, Purchase, PaymentUpdate, BuyerSession, Purchase], e);
    AmongFive(Purchase, BuyerSession, PaymentUpdate, BuyerSession, RiskPrediction, e);
    AmongFive(Purchase, BuyerSession, StatusUpdate, BuyerSession, Purchase, e);
    AmongFive(PaymentUpdate, BuyerSession, Purchase, BuyerSession, RiskPrediction, e);
    AmongFive(BuyerSession, Purchase, PaymentUpdate, BuyerSession, Purchase, e);
  }

  lemma FourParts(a: seq<Event>, b: seq<Event>, c: seq<Event>, d: seq<Event>, e: Event)
    ensures Among(a + b + c + d, e) == Among(a, e) + Among(b, e) + Among(c, e) + Among(d, e)
  {
    AmongConcat(a + b + c, d, e);
    AmongConcat(a + b, c, e);
    AmongConcat(a, b, e);
  }

  // ---------------------------------------------------------------- what a number of whole frames writes

  /** A quantity summed over events, weighted by how often each occurs. */
  function Weighted(p: int, s: int, u: int, r: int, t: int, f: seq<Table> -> int): int {
    p * f(EventChanges(Purchase)) + s * f(EventChanges(BuyerSession)) + u * f(EventChanges(PaymentUpdate)) +
    r * f(EventChanges(RiskPrediction)) + t * f(EventChanges(StatusUpdate))
  }

  lemma WeightedStep(p: int, s: int, u: int, r: int, t: int, e: Event, f: seq<Table> -> int)
    ensures Weighted(p + if e.Purchase? then 1 else 0, s + if e.BuyerSession? then 1 else 0,
                     u + if e.PaymentUpdate? then 1 else 0, r + if e.RiskPrediction? then 1 else 0,
                     t + if e.StatusUpdate? then 1 else 0, f) ==
            Weighted(p, s, u, r, t, f) + f(EventChanges(e))
  {
    var x := f(EventChanges(e));
    match e
    case Purchase => OneMore(p, x);
    case BuyerSession => OneMore(s, x);
    case PaymentUpdate => OneMore(u, x);
    case RiskPrediction => OneMore(r, x);
    case StatusUpdate => OneMore(t, x);
  }

  lemma OneMore(n: int, x: int)
    ensures (n + 1) * x == n * x + x
  {
  }

  lemma {:induction false} ChangesByEvent(frame: seq<Event>, n: nat, f: seq<Table> -> int)
    requires frame != []
    ensures Sum(FrameChanges(frame, n), f) ==
            Weighted(Emitted(frame, n, Purchase), Emitted(frame, n, BuyerSession), Emitted(frame, n, PaymentUpdate),
                     Emitted(frame, n, RiskPrediction), Emitted(frame, n, StatusUpdate), f)
  {
    if n > 0 {
      hide Weighted, EventChanges, FrameEvent, FrameChanges, Sum, Emitted;
      ChangesByEvent(frame, n - 1, f);
      OneMoreChange(frame, n - 1);
      OneMoreEmitted(frame, n - 1);
      var last := FrameEvent(frame, n - 1);
      SumConcat(FrameChanges(frame, n - 1), [EventChanges(last)], f);
      SumOne(EventChanges(last), f);
      WeightedStep(Emitted(frame, n - 1, Purchase), Emitted(frame, n - 1, BuyerSession),
                   Emitted(frame, n - 1, PaymentUpdate), Emitted(frame, n - 1, RiskPrediction),
                   Emitted(frame, n - 1, StatusUpdate), last, f);
    }
  }

  lemma SumOne<T>(x: T, f: T -> int)
    ensures Sum([x], f) == f(x)
  {
    assert [x][1..] == [];
  }

  lemma {:induction false} InsertedByEvent(frame: seq<Event>, base: Counts, n: nat)
    requires frame != []
    ensures var p := Emitted(frame, n, Purchase);
            InsertedBy(frame, base, n) ==
            Counts(base.txns + p, base.items + 2 * p, base.sessions + Emitted(frame, n, BuyerSession), base.payments + p,
                   base.risk + p, base.predictions + Emitted(frame, n, RiskPrediction))
  {
    if n > 0 { InsertedByEvent(frame, base, n - 1); }
  }

  function Occurrences(t: Table): seq<Table> -> int { (c: seq<Table>) => |Filter(c, IsTable(t))| }

  function IsTable(t: Table): Table -> bool { (u: Table) => u == t }

  const SIZE: seq<Table> -> int := (c: seq<Table>) => |c|

  /** The row changes of one frame, by table. */
  function FrameRows(t: Table): nat {
    match t
    case Transactions => 7
    case TransactionProducts => 12
    case Payments => 9
    case Risk => 6
    case Buyers => 6
    case Vendors => 6
    case Sessions => 8
    case Predictions => 2
    case _ => 0
  }

  lemma FilterCons<T>(x: T, s: seq<T>, p: T -> bool)
    ensures Filter([x] + s, p) == (if p(x) then [x] else []) + Filter(s, p)
  {
    assert ([x] + s)[1..] == s;
  }

  lemma LastRows(t: Table)
    ensures |Filter([TransactionProducts, Payments, Risk, Buyers, Vendors], IsTable(t))| ==
            if t in {TransactionProducts, Payments, Risk, Buyers, Vendors} then 1 else 0
  {
    var p := IsTable(t);
    FilterCons(TransactionProducts, [Payments, Risk, Buyers, Vendors], p);
    FilterCons(Payments, [Risk, Buyers, Vendors], p);
    FilterCons(Risk, [Buyers, Vendors], p);
    FilterCons(Buyers, [Vendors], p);
    FilterOne(Vendors, p);
    assert [TransactionProducts, Payments, Risk, Buyers, Vendors] ==
           [TransactionProducts] + ([Payments] + ([Risk] + ([Buyers] + [Vendors])));
  }

  lemma PurchaseRows(t: Table)
    ensures Occurrences(t)(EventChanges(Purchase)) ==
            match t
            case TransactionProducts => 2
            case Transactions => 1
            case Payments => 1
            case Risk => 1
            case Buyers => 1
            case Vendors => 1
            case _ => 0
  {
    var p := IsTable(t);
    FilterCons(Transactions, [TransactionProducts, TransactionProducts, Payments, Risk, Buyers, Vendors], p);
    FilterCons(TransactionProducts, [TransactionProducts, Payments, Risk, Buyers, Vendors], p);
    LastRows(t);
    assert EventChanges(Purchase) ==
           [Transactions] + [TransactionProducts, TransactionProducts, Payments, Risk, Buyers, Vendors];
    assert [TransactionProducts, TransactionProducts, Payments, Risk, Buyers, Vendors] ==
           [TransactionProducts] + [TransactionProducts, Payments, Risk, Buyers, Vendors];
  }

  lemma SingleRow(u: Table, t: Table)
    ensures Occurrences(t)([u]) == if t == u then 1 else 0
  {
    FilterOne(u, IsTable(t));
  }

  lemma OtherRows(t: Table)
    ensures Occurrences(t)(EventChanges(BuyerSession)) == if t == Sessions then 1 else 0
    ensures Occurrences(t)(EventChanges(PaymentUpdate)) == if t == Payments then 1 else 0
    ensures Occurrences(t)(EventChanges(RiskPrediction)) == if t == Predictions then 1 else 0
    ensures Occurrences(t)(EventChanges(StatusUpdate)) == if t == Transactions then 1 else 0
  {
    hide Occurrences;
    SingleRow(Sessions, t);
    SingleRow(Payments, t);
    SingleRow(Predictions, t);
    SingleRow(Transactions, t);
  }

  /** A frame of twenty events with the fixed mix. */
  ghost predicate Mixed(frame: seq<Event>) { |frame| == 20 && forall e :: Among(frame, e) == PerFrame(e) }

  lemma FrameIsMixed()
    ensures Mixed(EVENT_FRAME)
  {
    forall e ensures Among(EVENT_FRAME, e) == PerFrame(e) { FrameMix(e); }
    FrameParts();
  }

  lemma MixedEmits(frame: seq<Event>, m: nat, e: Event)
    requires Mixed(frame)
    ensures Emitted(frame, 20 * m, e) == m * PerFrame(e)
  {
    EmittedByFrames(frame, m, e);
  }

  lemma Factor(m: nat, a: int, b: int, c: int, d: int, e: int)
    ensures (m * 6) * a + (m * 8) * b + (m * 3) * c + (m * 2) * d + (m * 1) * e ==
            (6 * a + 8 * b + 3 * c + 2 * d + 1 * e) * m
  {
  }

  lemma MixedChanges(frame: seq<Event>, m: nat, f: seq<Table> -> int)
    requires Mixed(frame)
    ensures Sum(FrameChanges(frame, 20 * m), f) == Weighted(6, 8, 3, 2, 1, f) * m
  {
    ChangesByEvent(frame, 20 * m, f);
    MixedEmits(frame, m, Purchase);
    MixedEmits(frame, m, BuyerSession);
    MixedEmits(frame, m, PaymentUpdate);
    MixedEmits(frame, m, RiskPrediction);
    MixedEmits(frame, m, StatusUpdate);
    Factor(m, f(EventChanges(Purchase)), f(EventChanges(BuyerSession)), f(EventChanges(PaymentUpdate)),
           f(EventChanges(RiskPrediction)), f(EventChanges(StatusUpdate)));
  }

  lemma RowsPerFrame(t: Table)
    ensures Weighted(6, 8, 3, 2, 1, Occurrences(t)) == FrameRows(t) && Weighted(6, 8, 3, 2, 1, SIZE) == 56
  {
    hide Occurrences;
    PurchaseRows(t);
    OtherRows(t);
  }

  /** `m` whole frames change exactly 56 rows each, with the same mix of tables every time. */
  lemma WholeFrames(m: nat)
    ensures Sum(FrameChanges(EVENT_FRAME, 20 * m), SIZE) == 56 * m
    ensures forall t :: Sum(FrameChanges(EVENT_FRAME, 20 * m), Occurrences(t)) == FrameRows(t) * m
  {
    FrameIsMixed();
    RowsPerFrame(Markets);
    MixedChanges(EVENT_FRAME, m, SIZE);
    forall t ensures Sum(FrameChanges(EVENT_FRAME, 20 * m), Occurrences(t)) == FrameRows(t) * m {
      RowsPerFrame(t);
      MixedChanges(EVENT_FRAME, m, Occurrences(t));
    }
  }

  lemma MixedInserts(frame: seq<Event>, m: nat, base: Counts)
    requires Mixed(frame)
    ensures InsertedBy(frame, base, 20 * m) ==
            Counts(base.txns + 6 * m, base.items + 12 * m, base.sessions + 8 * m, base.payments + 6 * m, base.risk + 6 * m,
                   base.predictions + 2 * m)
  {
    InsertedByEvent(frame, base, 20 * m);
    MixedEmits(frame, m, Purchase);
    MixedEmits(frame, m, BuyerSession);
    MixedEmits(frame, m, RiskPrediction);
  }
}

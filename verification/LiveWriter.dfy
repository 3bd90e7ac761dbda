/** `LiveEventWriter`: five kinds of events, one transaction each. */
module LiveWriter {
  import opened Collections
  import opened Schema
  import opened Records
  import opened Relational
  import opened Gold
  import opened GoldTotals
  import opened Live
  import opened LiveProofs
  import opened LiveRuns

  datatype LiveError = SeedProductsMissing | UniqueViolation | ForeignKeyViolation | NotANumber

  datatype Event = Purchase | BuyerSession | PaymentUpdate | RiskPrediction | StatusUpdate

  const RECENT_LIMIT: nat := 5000
  const RELOAD_LIMIT: nat := 1000

  /** `random.random()` */
  type Roll = r: real | 0.0 <= r < 1.0 witness 0.0

  /** `random.randint(1, MARKET_COUNT)` */
  type Market = m: nat | 1 <= m <= MARKET_COUNT witness 1

  /** What clock and random source give one event: elapsed microseconds, UUIDs, draws. */
  datatype Chance = Chance(elapsed: nat, event: nat, payment: nat, session: nat, prediction: nat,
                           vendorRoll: Roll, buyerRoll: Roll, platform: Market, origin: nat, destination: nat,
                           cents: nat, fraudPercent: nat, completed: bool, pick: nat)

  /** `1 + int(random() ** 3 * size)` */
  function SkewedIndex(roll: Roll, size: nat): nat {
    var cubed := roll * roll * roll;
    1 + Max(0, (cubed * size as real).Floor)
  }

  lemma SkewedIndexInRange(roll: Roll, size: nat)
    requires size >= 1
    ensures 1 <= SkewedIndex(roll, size) <= size
  {
    var cubed := roll * roll * roll;
    assert 0.0 <= roll * roll <= roll;
    assert 0.0 <= cubed < 1.0;
    assert cubed * size as real < 1.0 * size as real;
    assert (cubed * size as real).Floor < size;
  }

  function DrawOf(c: Chance): Draw {
    Draw(c.event, c.payment, SkewedIndex(c.vendorRoll, VENDOR_COUNT), SkewedIndex(c.buyerRoll, BUYER_COUNT), c.platform,
         c.origin, c.destination, c.cents, c.fraudPercent)
  }

  /** The bounded deque drops its oldest pair when it is full. */
  function Remember(recent: seq<(Id, Id)>, pair: (Id, Id)): seq<(Id, Id)> {
    if |recent| >= RECENT_LIMIT then recent[|recent| - RECENT_LIMIT + 1..] + [pair] else recent + [pair]
  }

  function Repeat(t: Table, n: nat): (r: seq<Table>)
    ensures |r| == n && forall i :: 0 <= i < n ==> r[i] == t
  {
    seq(n, _ => t)
  }

  /** The row changes one event writes to the log when it touches each of its rows once. */
  function EventChanges(e: Event): seq<Table> {
    match e
    case Purchase => [Transactions, TransactionProducts, TransactionProducts, Payments, Risk, Buyers, Vendors]
    case BuyerSession => [Sessions]
    case PaymentUpdate => [Payments]
    case RiskPrediction => [Predictions]
    case StatusUpdate => [Transactions]
  }

  /** The pairs the start-up query may return: the latest thousand of the payments joined to their transactions. */
  ghost predicate IsRecentQuery(db: Db, rows: seq<(Id, Id)>) {
    && |rows| == Min(RELOAD_LIMIT, |db.payments|)
    && Distinct(rows)
    && (forall r :: r in rows ==> exists p :: p in db.payments && r == (p.event, p.id))
    && (forall i, t, j, u ::
          0 <= i < j < |rows| && t in db.txns && u in db.txns && t.code == rows[i].0 && u.code == rows[j].0 ==>
            t.time >= u.time)
    && (forall r, p, t, u ::
          r in rows && p in db.payments && (p.event, p.id) !in rows && t in db.txns && u in db.txns &&
          t.code == r.0 && u.code == p.event ==>
            t.time >= u.time)
  }

  /** Row counts per fact table. */
  datatype Counts = Counts(txns: int, items: int, sessions: int, payments: int, risk: int, predictions: int)

  function CountsOf(db: Db): Counts {
    Counts(|db.txns|, |db.items|, |db.sessions|, |db.payments|, |db.risk|, |db.predictions|)
  }

  function AddCounts(a: Counts, b: Counts): Counts {
    Counts(a.txns + b.txns, a.items + b.items, a.sessions + b.sessions, a.payments + b.payments, a.risk + b.risk,
           a.predictions + b.predictions)
  }

  /** The rows one event inserts. */
  function Inserted(e: Event): Counts {
    match e
    case Purchase => Counts(1, 2, 0, 1, 1, 0)
    case BuyerSession => Counts(0, 0, 1, 0, 0, 0)
    case PaymentUpdate => Counts(0, 0, 0, 0, 0, 0)
    case RiskPrediction => Counts(0, 0, 0, 0, 0, 1)
    case StatusUpdate => Counts(0, 0, 0, 0, 0, 0)
  }

  lemma ReloadedPairs(db: Db, clock: nat, seed: int, rows: seq<(Id, Id)>)
    requires Inv(db, clock, seed) && IsRecentQuery(db, rows)
    ensures PairsGood(db, rows)
  {
    forall r | r in rows ensures GoodPair(db.txns, db.payments, db.risk, r) {
      var p :| p in db.payments && r == (p.event, p.id);
      assert TxnBy(db.txns, p.event, p.time);
      var t :| t in db.txns && t.code == p.event && t.time <= p.time;
      assert GoodTxn(t, db.risk, clock);
    }
  }

  /** A purchase updates one buyer row and one vendor row. */
  lemma PurchaseHits(db: Db, d: Draw)
    requires Universe(db.vendors, db.buyers, db.products) && GoodDraw(d)
    ensures |Group(db.buyers, BUYER_CODE, d.buyer)| == 1 && |Group(db.vendors, VENDOR_KEY, d.vendor)| == 1
    ensures d.vendor in Map(db.vendors, VENDOR_KEY) && d.buyer in Map(db.buyers, BUYER_CODE)
  {
    KeyOfRange(db.buyers, BUYER_CODE, BUYER_COUNT, d.buyer);
    OneRow(db.buyers, BUYER_CODE, d.buyer);
    KeyOfRange(db.vendors, VENDOR_KEY, VENDOR_COUNT, d.vendor);
    OneRow(db.vendors, VENDOR_KEY, d.vendor);
    assert Range(VENDOR_COUNT)[d.vendor - 1] == d.vendor && Range(BUYER_COUNT)[d.buyer - 1] == d.buyer;
  }

  lemma PairHits(db: Db, pair: (Id, Id))
    requires KeysHold(db) && GoodPair(db.txns, db.payments, db.risk, pair)
    ensures |Group(db.payments, PAYMENT_ID, pair.1)| == 1 && |Group(db.txns, TXN_CODE, pair.0)| == 1
  {
    OneRow(db.payments, PAYMENT_ID, pair.1);
    OneRow(db.txns, TXN_CODE, pair.0);
  }

  /** The row changes of a purchase: five inserts and as many updates as rows match. */
  function PurchaseChanges(db: Db, d: Draw): seq<Table> {
    [Transactions, TransactionProducts, TransactionProducts, Payments, Risk] +
    Repeat(Buyers, |Group(db.buyers, BUYER_CODE, d.buyer)|) + Repeat(Vendors, |Group(db.vendors, VENDOR_KEY, d.vendor)|)
  }

  lemma GoodDrawOf(c: Chance)
    ensures GoodDraw(DrawOf(c))
  {
    SkewedIndexInRange(c.vendorRoll, VENDOR_COUNT);
    SkewedIndexInRange(c.buyerRoll, BUYER_COUNT);
  }

  lemma RememberKeeps(db: Db, recent: seq<(Id, Id)>, pair: (Id, Id))
    requires PairsGood(db, recent + [pair])
    ensures PairsGood(db, Remember(recent, pair)) && Remember(recent, pair) != []
    ensures |recent| <= RECENT_LIMIT ==> |Remember(recent, pair)| <= RECENT_LIMIT
  {
    forall p | p in Remember(recent, pair) ensures GoodPair(db.txns, db.payments, db.risk, p) {
      assert p in recent + [pair];
    }
  }

  /** Constraints PostgreSQL checks for a purchase, in the order of its statements. */
  method PurchaseErrors(db: Db, d: Draw) returns (r: Option<LiveError>)
    requires Universe(db.vendors, db.buyers, db.products) && GoodDraw(d) && VendorsAgree(db.vendors)
    ensures r == if FreshDraw(db, d) then None else Some(UniqueViolation)
  {
    PurchaseHits(db, d);
    if exists t :: t in db.txns && t.code == Id.Live(d.event) {
      return Some(UniqueViolation);
    }
    if d.vendor !in Map(db.vendors, VENDOR_KEY) || d.buyer !in Map(db.buyers, BUYER_CODE) {
      return Some(ForeignKeyViolation);
    }
    if exists p :: p in db.payments && p.id == Id.Live(d.payment) {
      return Some(UniqueViolation);
    }
    if exists v :: v in db.vendors && v.key == d.vendor && TextNumber(v.totalTxns).None? {
      return Some(NotANumber);
    }
    r := None;
  }

  lemma PurchaseReady(db: Db, c: Chance)
    requires Universe(db.vendors, db.buyers, db.products)
    ensures GoodDraw(DrawOf(c)) && |YoungestTwo(db.products, DrawOf(c).vendor)| == 2
    ensures PurchaseChanges(db, DrawOf(c)) == EventChanges(Purchase)
  {
    GoodDrawOf(c);
    SeededProducts(db, DrawOf(c).vendor);
    PurchaseHits(db, DrawOf(c));
  }

  lemma PurchaseStep(db: Db, d: Draw, before: nat, now: nat, seed: int, recent: seq<(Id, Id)>)
    requires Inv(db, before, seed) && before <= now && PairsGood(db, recent) && GoodDraw(d) && FreshDraw(db, d)
    ensures var two := YoungestTwo(db.products, d.vendor);
            && |two| == 2 && Inv(AfterPurchase(db, d, two, now), now, seed)
            && PairsGood(AfterPurchase(db, d, two, now), Remember(recent, (Id.Live(d.event), Id.Live(d.payment))))
  {
    PurchaseKeeps(db, d, now, before, seed);
    var two := YoungestTwo(db.products, d.vendor);
    PairsAfterPurchase(db, d, two, now, recent);
    RememberKeeps(AfterPurchase(db, d, two, now), recent, (Id.Live(d.event), Id.Live(d.payment)));
  }

  lemma PaymentStep(db: Db, pair: (Id, Id), before: nat, now: nat, seed: int, recent: seq<(Id, Id)>)
    requires Inv(db, before, seed) && before <= now && PairsGood(db, recent) && pair in recent
    ensures Repeat(Payments, |Group(db.payments, PAYMENT_ID, pair.1)|) == EventChanges(PaymentUpdate)
    ensures Inv(AfterPaymentUpdate(db, pair.1, now), now, seed) && PairsGood(AfterPaymentUpdate(db, pair.1, now), recent)
  {
    assert GoodPair(db.txns, db.payments, db.risk, pair);
    PairHits(db, pair);
    LaterClock(db, before, now, seed);
    PaymentUpdateKeeps(db, pair.1, now, seed);
    PairsAfterPaymentUpdate(db, pair.1, now, recent);
  }

  lemma StatusStep(db: Db, pair: (Id, Id), before: nat, now: nat, seed: int, recent: seq<(Id, Id)>)
    requires Inv(db, before, seed) && before <= now && PairsGood(db, recent) && pair in recent
    ensures Repeat(Transactions, |Group(db.txns, TXN_CODE, pair.0)|) == EventChanges(StatusUpdate)
    ensures Inv(AfterStatusUpdate(db, pair.0, now), now, seed) && PairsGood(AfterStatusUpdate(db, pair.0, now), recent)
  {
    assert GoodPair(db.txns, db.payments, db.risk, pair);
    PairHits(db, pair);
    LaterClock(db, before, now, seed);
    StatusUpdateKeeps(db, pair.0, now, seed);
    PairsAfterStatusUpdate(db, pair.0, now, recent);
  }

  lemma PredictionStep(db: Db, p: Prediction, pair: (Id, Id), before: nat, seed: int, recent: seq<(Id, Id)>)
    requires Inv(db, before, seed) && before <= p.time && PairsGood(db, recent) && pair in recent && p.event == pair.0
    ensures Inv(db, p.time, seed) && RiskFor(db.risk, p.event)
    ensures (forall x :: x in db.predictions ==> x.id != p.id) ==>
              Inv(AfterPrediction(db, p), p.time, seed) && PairsGood(AfterPrediction(db, p), recent)
  {
    assert GoodPair(db.txns, db.payments, db.risk, pair);
    LaterClock(db, before, p.time, seed);
    if forall x :: x in db.predictions ==> x.id != p.id {
      PredictionKeeps(db, p, pair, seed);
      PairsAfterInsert(db, AfterPrediction(db, p), recent);
    }
  }

  /** The writer's state as a value. */
  datatype Store = Store(db: Db, clock: nat, recent: seq<(Id, Id)>, wal: seq<seq<Table>>)

  /** The state once something is remembered: as it is, or after one more purchase. */
  function Ready(s: Store, c: Chance): Store {
    var two := YoungestTwo(s.db.products, DrawOf(c).vendor);
    if s.recent != [] || |two| != 2 then s
    else Store(AfterPurchase(s.db, DrawOf(c), two, s.clock + c.elapsed), s.clock + c.elapsed,
               [(Id.Live(c.event), Id.Live(c.payment))], s.wal + [EventChanges(Purchase)])
  }

  /** Nothing is remembered, and the purchase that would change that hits a taken UUID. */
  ghost predicate NothingToChoose(s: Store, c: Chance) { s.recent == [] && !FreshDraw(s.db, DrawOf(c)) }

  /** The pair picked among those remembered. */
  function Picked(s: Store, c: Chance): (Id, Id)
    requires s.recent != []
  {
    s.recent[c.pick % |s.recent|]
  }

  /** The purchase that comes first when nothing is remembered. */
  function ReadySteps(s: Store, c: Chance): seq<Step> {
    if s.recent != [] then [] else [Bought(DrawOf(c), s.clock + c.elapsed)]
  }

  lemma ReadyRuns(s: Store, c: Chance, seed: int)
    requires Inv(s.db, s.clock, seed) && !NothingToChoose(s, c)
    ensures Leads(s.db, s.clock, ReadySteps(s, c), Ready(s, c).db, Ready(s, c).clock)
  {
    hide Inv, AfterPurchase, FreshDraw;
    if s.recent == [] {
      PurchaseRuns(s.db, s.clock, c, s.clock + c.elapsed, seed);
    }
  }

  lemma PurchaseRuns(db: Db, clock: nat, c: Chance, now: nat, seed: int)
    requires Inv(db, clock, seed) && FreshDraw(db, DrawOf(c)) && clock <= now
    ensures var two := YoungestTwo(db.products, DrawOf(c).vendor);
            |two| == 2 && Leads(db, clock, [Bought(DrawOf(c), now)], AfterPurchase(db, DrawOf(c), two, now), now)
  {
    hide AfterPurchase, FreshDraw, GoodDraw, YoungestTwo, PurchaseChanges;
    PurchaseReady(db, c);
    LeadsNowhere(db, clock);
    LeadsOn(db, clock, [], db, clock, Bought(DrawOf(c), now));
    assert [] + [Bought(DrawOf(c), now)] == [Bought(DrawOf(c), now)];
  }

  lemma SessionRuns(db: Db, clock: nat, x: Session, now: nat)
    requires 1 <= x.buyer <= BUYER_COUNT && clock <= now && forall y :: y in db.sessions ==> y.id != x.id
    ensures Leads(db, clock, [Visited(x, now)], AfterSession(db, x), now)
  {
    LeadsNowhere(db, clock);
    LeadsOn(db, clock, [], db, clock, Visited(x, now));
    assert [] + [Visited(x, now)] == [Visited(x, now)];
  }

  /** The purchase that comes first if need be, and then a step that is possible after it. */
  lemma PickRuns(s: Store, c: Chance, step: Step, seed: int)
    requires Inv(s.db, s.clock, seed) && !NothingToChoose(s, c) && Enabled(Ready(s, c).db, Ready(s, c).clock, step)
    ensures Leads(s.db, s.clock, ReadySteps(s, c) + [step], After(Ready(s, c).db, step), step.now)
  {
    hide Inv, Ready, ReadySteps, NothingToChoose, Enabled, Leads, After;
    ReadyRuns(s, c, seed);
    LeadsOn(s.db, s.clock, ReadySteps(s, c), Ready(s, c).db, Ready(s, c).clock, step);
  }

  /** A prediction leaves the tables that its pair is about as they were. */
  lemma PickStays(s: Store, db: Db, recent: seq<(Id, Id)>, c: Chance)
    requires s.recent != [] && recent == s.recent && PairsGood(db, recent)
    requires db.txns == s.db.txns && db.payments == s.db.payments && db.risk == s.db.risk
    ensures GoodPair(s.db.txns, s.db.payments, s.db.risk, Picked(s, c))
  {
  }

  function SessionOf(c: Chance): Session {
    Session(Id.Live(c.session), SkewedIndex(c.buyerRoll, BUYER_COUNT), c.completed)
  }

  /** The step that an event of this kind ends with. */
  predicate StepOf(s: Step, e: Event) {
    match e
    case Purchase => s.Bought?
    case BuyerSession => s.Visited?
    case PaymentUpdate => s.PaymentSettled?
    case RiskPrediction => s.Predicted?
    case StatusUpdate => s.TxnCompleted?
  }

  class LiveEventWriter {
    var db: Db                       // PostgreSQL, through the connection
    var clock: nat                   // the last reading of the clock, which never goes back
    var recent: seq<(Id, Id)>
    var wal: seq<seq<Table>>         // row changes by committed transaction
    ghost var seed: int              // total PurchaseCount of the seeded buyers

    ghost predicate Valid()
      reads this
    {
      Inv(db, clock, seed) && |recent| <= RECENT_LIMIT && PairsGood(db, recent)
    }

    function State(): Store
      reads this
    {
      Store(db, clock, recent, wal)
    }

    /** A (re)start: the remembered pairs are read back from the tables. */
    constructor (db: Db, clock: nat, ghost seed: int, rows: seq<(Id, Id)>)
      requires Inv(db, clock, seed) && IsRecentQuery(db, rows)
      ensures Valid() && this.db == db && this.clock == clock && this.seed == seed && recent == rows && wal == []
    {
      this.db, this.clock, this.seed := db, clock, seed;
      recent := rows;
      wal := [];
      new;
      ReloadedPairs(db, clock, seed, rows);
    }

    /** The only way a purchase fails is a UUID that is already taken, and then nothing changes. */
    method MakePurchase(c: Chance) returns (r: Option<LiveError>)
      requires Valid()
      modifies this
      ensures Valid() && seed == old(seed) && clock == old(clock) + c.elapsed
      ensures r.None? <==> FreshDraw(old(db), DrawOf(c))
      ensures r.Some? ==> r.value == UniqueViolation && db == old(db) && recent == old(recent) && wal == old(wal)
      ensures r.None? ==> var two := YoungestTwo(old(db).products, DrawOf(c).vendor);
                          |two| == 2 && db == AfterPurchase(old(db), DrawOf(c), two, clock)
      ensures r.None? ==> recent == Remember(old(recent), (Id.Live(c.event), Id.Live(c.payment)))
      ensures r.None? ==> wal == old(wal) + [EventChanges(Purchase)]
    {
      var d := DrawOf(c);
      ghost var before := clock;
      clock := clock + c.elapsed;
      LaterClock(db, before, clock, seed);
      PurchaseReady(db, c);
      var products := YoungestTwo(db.products, d.vendor);
      if |products| != 2 {
        return Some(SeedProductsMissing);
      }
      var refused := PurchaseErrors(db, d);
      if refused.Some? {
        return refused;
      }
      PurchaseStep(db, d, clock, clock, seed, recent);
      wal := wal + [PurchaseChanges(db, d)];
      db := AfterPurchase(db, d, products, clock);
      recent := Remember(recent, (Id.Live(d.event), Id.Live(d.payment)));
      r := None;
    }

    method InsertSession(c: Chance) returns (r: Option<LiveError>)
      requires Valid()
      modifies this
      ensures Valid() && seed == old(seed) && recent == old(recent) && clock == old(clock) + c.elapsed
      ensures r.None? <==> forall s :: s in old(db).sessions ==> s.id != Id.Live(c.session)
      ensures r.Some? ==> r.value == UniqueViolation && db == old(db) && wal == old(wal)
      ensures r.None? ==> wal == old(wal) + [EventChanges(BuyerSession)]
      ensures r.None? ==>
                db == AfterSession(old(db), SessionOf(c))
    {
      ghost var before := clock;
      clock := clock + c.elapsed;
      LaterClock(db, before, clock, seed);
      SkewedIndexInRange(c.buyerRoll, BUYER_COUNT);
      var s := SessionOf(c);
      if exists x :: x in db.sessions && x.id == s.id {
        return Some(UniqueViolation);
      }
      SessionKeeps(db, s, clock, seed);
      PairsAfterInsert(db, AfterSession(db, s), recent);
      db := AfterSession(db, s);
      wal := wal + [[Sessions]];
      r := None;
    }

    /** Falls back to a purchase only when nothing is remembered. */
    method ChooseRecent(c: Chance) returns (r: Result<(Id, Id), LiveError>)
      requires Valid()
      modifies this
      ensures Valid() && seed == old(seed)
      ensures r.Failure? <==> NothingToChoose(old(State()), c)
      ensures r.Failure? ==> r.error == UniqueViolation && db == old(db) && recent == old(recent) && wal == old(wal)
      ensures old(clock) <= clock
      ensures r.Success? ==> State() == Ready(old(State()), c) && recent != [] && r.value == Picked(State(), c)
      ensures r.Success? ==> GoodPair(db.txns, db.payments, db.risk, r.value)
    {
      hide Inv, AfterPurchase, FreshDraw;
      if recent == [] {
        var failed := MakePurchase(c);
        if failed.Some? {
          return Failure(failed.value);
        }
      }
      var pair := recent[c.pick % |recent|];
      assert GoodPair(db.txns, db.payments, db.risk, pair);
      r := Success(pair);
    }

    method UpdatePayment(c: Chance) returns (r: Option<LiveError>)
      requires Valid()
      modifies this
      ensures Valid() && seed == old(seed) && (r.Some? <==> NothingToChoose(old(State()), c))
      ensures old(clock) <= clock
      ensures r.Some? ==> r.value == UniqueViolation && db == old(db) && recent == old(recent) && wal == old(wal)
      ensures r.None? ==>
                var s := Ready(old(State()), c);
                s.recent != [] &&
                State() == Store(AfterPaymentUpdate(s.db, Picked(s, c).1, clock), s.clock + c.elapsed, s.recent,
                                 s.wal + [EventChanges(PaymentUpdate)])
    {
      hide Inv, PairsGood, Ready;
      var chosen := ChooseRecent(c);
      if chosen.Failure? {
        return Some(chosen.error);
      }
      ghost var before := clock;
      clock := clock + c.elapsed;
      PaymentStep(db, chosen.value, before, clock, seed, recent);
      wal := wal + [Repeat(Payments, |Group(db.payments, PAYMENT_ID, chosen.value.1)|)];
      db := AfterPaymentUpdate(db, chosen.value.1, clock);
      r := None;
    }

    method InsertPrediction(c: Chance) returns (r: Option<LiveError>)
      requires Valid()
      modifies this
      ensures Valid() && seed == old(seed) && (r.Some? ==> r.value == UniqueViolation)
      ensures r.None? <==> !NothingToChoose(old(State()), c) &&
                           forall p :: p in Ready(old(State()), c).db.predictions ==> p.id != Id.Live(c.prediction)
      ensures r.Some? ==>
                var s := if NothingToChoose(old(State()), c) then old(State()) else Ready(old(State()), c);
                db == s.db && recent == s.recent && wal == s.wal && s.clock <= clock
      ensures r.None? ==>
                var s := Ready(old(State()), c);
                s.recent != [] &&
                State() == Store(AfterPrediction(s.db, Prediction(Id.Live(c.prediction), Picked(s, c).0, clock)),
                                 s.clock + c.elapsed, s.recent, s.wal + [EventChanges(RiskPrediction)])
    {
      hide Inv, PairsGood, Ready;
      var chosen := ChooseRecent(c);
      if chosen.Failure? {
        return Some(chosen.error);
      }
      ghost var before := clock;
      clock := clock + c.elapsed;
      var p := Prediction(Id.Live(c.prediction), chosen.value.0, clock);
      PredictionStep(db, p, chosen.value, before, seed, recent);
      if exists x :: x in db.predictions && x.id == p.id {
        return Some(UniqueViolation);
      }
      if !exists x :: x in db.risk && x.event == p.event {
        return Some(ForeignKeyViolation);
      }
      db := AfterPrediction(db, p);
      wal := wal + [[Predictions]];
      r := None;
    }

    method UpdateStatus(c: Chance) returns (r: Option<LiveError>)
      requires Valid()
      modifies this
      ensures Valid() && seed == old(seed) && (r.Some? <==> NothingToChoose(old(State()), c))
      ensures old(clock) <= clock
      ensures r.Some? ==> r.value == UniqueViolation && db == old(db) && recent == old(recent) && wal == old(wal)
      ensures r.None? ==>
                var s := Ready(old(State()), c);
                s.recent != [] &&
                State() == Store(AfterStatusUpdate(s.db, Picked(s, c).0, clock), s.clock + c.elapsed, s.recent,
                                 s.wal + [EventChanges(StatusUpdate)])
    {
      hide Inv, PairsGood, Ready;
      var chosen := ChooseRecent(c);
      if chosen.Failure? {
        return Some(chosen.error);
      }
      ghost var before := clock;
      clock := clock + c.elapsed;
      StatusStep(db, chosen.value, before, clock, seed, recent);
      wal := wal + [Repeat(Transactions, |Group(db.txns, TXN_CODE, chosen.value.0)|)];
      db := AfterStatusUpdate(db, chosen.value.0, clock);
      r := None;
    }

    /**
     One event: with something remembered it writes exactly its own row changes. Whether it succeeds or fails, what it has
     committed is a run of enabled steps.
     */
    method Emit(e: Event, c: Chance) returns (r: Option<LiveError>, ghost steps: seq<Step>)
      requires Valid()
      modifies this
      ensures Valid() && seed == old(seed) && (r.Some? ==> r.value == UniqueViolation)
      ensures r.None? && (old(recent) != [] || e.Purchase? || e.BuyerSession?) ==>
                wal == old(wal) + [EventChanges(e)] && CountsOf(db) == AddCounts(CountsOf(old(db)), Inserted(e))
      ensures r.None? && !e.BuyerSession? ==> recent != []
      ensures r.None? && old(recent) != [] ==> recent != []
      ensures Leads(old(db), old(clock), steps, db, clock)
      ensures r.None? ==> steps != [] && StepOf(steps[|steps| - 1], e)
    {
      hide Inv, PairsGood, ReadySteps, Leads, FreshDraw, NewTxn, NewPayment, YoungestTwo;
      ghost var s := State();
      LeadsNowhere(db, clock);
      steps := [];
      match e
      case Purchase =>
        r := MakePurchase(c);
        if r.None? {
          PurchaseRuns(s.db, s.clock, c, clock, seed);
          steps := [Bought(DrawOf(c), clock)];
        } else {
          LeadsLater(s.db, s.clock, [], db, s.clock, clock);
        }
      case BuyerSession =>
        r := InsertSession(c);
        if r.None? {
          SessionRuns(s.db, s.clock, SessionOf(c), clock);
          steps := [Visited(SessionOf(c), clock)];
        } else {
          LeadsLater(s.db, s.clock, [], db, s.clock, clock);
        }
      case PaymentUpdate =>
        r := UpdatePayment(c);
        if r.None? {
          PickRuns(s, c, PaymentSettled(Picked(Ready(s, c), c).1, clock), seed);
          steps := ReadySteps(s, c) + [PaymentSettled(Picked(Ready(s, c), c).1, clock)];
        } else {
          LeadsLater(s.db, s.clock, [], db, s.clock, clock);
        }
      case RiskPrediction =>
        r := InsertPrediction(c);
        if r.None? {
          PickStays(Ready(s, c), db, recent, c);
          PickRuns(s, c, Predicted(c.prediction, Picked(Ready(s, c), c), clock), seed);
          steps := ReadySteps(s, c) + [Predicted(c.prediction, Picked(Ready(s, c), c), clock)];
        } else if NothingToChoose(s, c) {
          LeadsLater(s.db, s.clock, [], db, s.clock, clock);
        } else {
          ReadyRuns(s, c, seed);
          steps := ReadySteps(s, c);
          LeadsLater(s.db, s.clock, steps, db, Ready(s, c).clock, clock);
        }
      case StatusUpdate =>
        r := UpdateStatus(c);
        if r.None? {
          PickRuns(s, c, TxnCompleted(Picked(Ready(s, c), c).0, clock), seed);
          steps := ReadySteps(s, c) + [TxnCompleted(Picked(Ready(s, c), c).0, clock)];
        } else {
          LeadsLater(s.db, s.clock, [], db, s.clock, clock);
        }
    }
  }
}

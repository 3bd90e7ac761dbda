/** Runs of live events on the tables: what any number of committed events keeps, and how the money grows. */
module LiveRuns {
  import opened Collections
  import opened Schema
  import opened Records
  import opened Relational
  import opened Gold
  import opened GoldTotals
  import opened Live
  import opened LiveProofs

  /** A committed event with the outcome of its draws. */
  datatype Step =
    | Bought(draw: Draw, now: nat)
    | Visited(session: Session, now: nat)
    | PaymentSettled(payment: Id, now: nat)
    | Predicted(id: nat, pair: (Id, Id), now: nat)
    | TxnCompleted(event: Id, now: nat)

  function After(db: Db, s: Step): Db {
    match s
    case Bought(d, now) =>
      var two := YoungestTwo(db.products, d.vendor);
      if |two| == 2 then AfterPurchase(db, d, two, now) else db
    case Visited(session, now) => AfterSession(db, session)
    case PaymentSettled(id, now) => AfterPaymentUpdate(db, id, now)
    case Predicted(id, pair, now) => AfterPrediction(db, Prediction(Id.Live(id), pair.0, now))
    case TxnCompleted(event, now) => AfterStatusUpdate(db, event, now)
  }

  /** The clock does not go back, fresh identifiers are fresh, and predictions are for remembered pairs. */
  ghost predicate Enabled(db: Db, clock: nat, s: Step) {
    && clock <= s.now
    && match s
       case Bought(d, now) => GoodDraw(d) && FreshDraw(db, d)
       case Visited(session, now) => 1 <= session.buyer <= BUYER_COUNT && forall x :: x in db.sessions ==> x.id != session.id
       case PaymentSettled(id, now) => true
       case Predicted(id, pair, now) =>
         GoodPair(db.txns, db.payments, db.risk, pair) && forall x :: x in db.predictions ==> x.id != Id.Live(id)
       case TxnCompleted(event, now) => true
  }

  function RunLive(db: Db, steps: seq<Step>): Db
    decreases |steps|
  {
    if steps == [] then db else RunLive(After(db, steps[0]), steps[1..])
  }

  ghost predicate AllEnabled(db: Db, clock: nat, steps: seq<Step>)
    decreases |steps|
  {
    steps == [] || (Enabled(db, clock, steps[0]) && AllEnabled(After(db, steps[0]), steps[0].now, steps[1..]))
  }

  function LastTime(clock: nat, steps: seq<Step>): nat { if steps == [] then clock else steps[|steps| - 1].now }

  /** These steps are possible one after the other, make one database out of the other, and are over by now. */
  ghost predicate Leads(db: Db, clock: nat, steps: seq<Step>, after: Db, now: nat) {
    AllEnabled(db, clock, steps) && after == RunLive(db, steps) && LastTime(clock, steps) <= now
  }

  lemma LeadsNowhere(db: Db, clock: nat)
    ensures Leads(db, clock, [], db, clock)
  {
  }

  /** One more step, possible where the others lead. */
  lemma {:induction false} LeadsOn(db: Db, clock: nat, steps: seq<Step>, mid: Db, now: nat, s: Step)
    requires Leads(db, clock, steps, mid, now) && Enabled(mid, now, s)
    ensures Leads(db, clock, steps + [s], After(mid, s), s.now)
    decreases |steps|
  {
    hide After, Enabled;
    if steps == [] {
      assert steps + [s] == [s] && [s][1..] == [];
      EarlierClock(db, clock, now, s);
      assert AllEnabled(After(db, s), s.now, [s][1..]) && RunLive(After(db, s), [s][1..]) == After(db, s);
      assert AllEnabled(db, clock, [s]) && RunLive(db, [s]) == After(db, s);
    } else {
      assert (steps + [s])[1..] == steps[1..] + [s];
      LeadsOn(After(db, steps[0]), steps[0].now, steps[1..], mid, now, s);
    }
  }

  /** One run after the other. */
  lemma {:induction false} LeadsThen(db: Db, clock: nat, a: seq<Step>, mid: Db, now: nat, b: seq<Step>, after: Db,
                                     later: nat)
    requires Leads(db, clock, a, mid, now) && Leads(mid, now, b, after, later)
    ensures Leads(db, clock, a + b, after, later)
    decreases |a|
  {
    hide After, Enabled;
    if a != [] {
      assert (a + b)[1..] == a[1..] + b;
      LeadsThen(After(db, a[0]), a[0].now, a[1..], mid, now, b, after, later);
    } else {
      assert a + b == b;
      LeadsEarlier(mid, clock, now, b, after, later);
    }
  }

  lemma LeadsEarlier(db: Db, clock: nat, now: nat, steps: seq<Step>, after: Db, later: nat)
    requires clock <= now && Leads(db, now, steps, after, later)
    ensures Leads(db, clock, steps, after, later)
  {
    hide After;
    if steps != [] { EarlierClock(db, clock, now, steps[0]); }
  }

  lemma LeadsLater(db: Db, clock: nat, steps: seq<Step>, after: Db, now: nat, later: nat)
    requires Leads(db, clock, steps, after, now) && now <= later
    ensures Leads(db, clock, steps, after, later)
  {
  }

  lemma EarlierClock(db: Db, clock: nat, now: nat, s: Step)
    requires clock <= now && Enabled(db, now, s)
    ensures Enabled(db, clock, s)
  {
  }

  lemma StepKeeps(db: Db, clock: nat, s: Step, seed: int)
    requires Inv(db, clock, seed) && Enabled(db, clock, s)
    ensures Inv(After(db, s), s.now, seed)
  {
    LaterClock(db, clock, s.now, seed);
    match s
    case Bought(d, now) => PurchaseKeeps(db, d, now, clock, seed);
    case Visited(session, now) => SessionKeeps(db, session, now, seed);
    case PaymentSettled(id, now) => PaymentUpdateKeeps(db, id, now, seed);
    case Predicted(id, pair, now) => PredictionKeeps(db, Prediction(Id.Live(id), pair.0, now), pair, seed);
    case TxnCompleted(event, now) => StatusUpdateKeeps(db, event, now, seed);
  }

  /** Every run of live events keeps the invariant. */
  lemma {:induction false} RunKeeps(db: Db, clock: nat, steps: seq<Step>, seed: int)
    requires Inv(db, clock, seed) && AllEnabled(db, clock, steps)
    ensures Inv(RunLive(db, steps), LastTime(clock, steps), seed)
    decreases |steps|
  {
    hide Inv, After, Enabled;
    if steps != [] {
      StepKeeps(db, clock, steps[0], seed);
      RunKeeps(After(db, steps[0]), steps[0].now, steps[1..], seed);
    }
  }

  // ---------------------------------------------------------------- row counts

  /** `SELECT count(*)`; the tables have no row for a market, whose number is fixed. */
  function RowsIn(db: Db, t: Table): nat {
    match t
    case Markets => MARKET_COUNT
    case Vendors => |db.vendors|
    case Buyers => |db.buyers|
    case Products => |db.products|
    case Transactions => |db.txns|
    case TransactionProducts => |db.items|
    case Sessions => |db.sessions|
    case Payments => |db.payments|
    case Risk => |db.risk|
    case Predictions => |db.predictions|
  }

  /** The rows one event inserts into a table. */
  function NewRows(s: Step, t: Table): nat {
    match t
    case Transactions => if s.Bought? then 1 else 0
    case TransactionProducts => if s.Bought? then 2 else 0
    case Payments => if s.Bought? then 1 else 0
    case Risk => if s.Bought? then 1 else 0
    case Sessions => if s.Visited? then 1 else 0
    case Predictions => if s.Predicted? then 1 else 0
    case _ => 0
  }

  function AllNewRows(steps: seq<Step>, t: Table): nat
    decreases |steps|
  {
    if steps == [] then 0 else NewRows(steps[0], t) + AllNewRows(steps[1..], t)
  }

  lemma StepInserts(db: Db, clock: nat, s: Step, seed: int, t: Table)
    requires Inv(db, clock, seed) && Enabled(db, clock, s)
    ensures RowsIn(After(db, s), t) == RowsIn(db, t) + NewRows(s, t)
  {
    if s.Bought? { SeededProducts(db, s.draw.vendor); }
  }

  /** Over any run a table grows by the rows its events insert. */
  lemma {:induction false} RunInserts(db: Db, clock: nat, steps: seq<Step>, seed: int, t: Table)
    requires Inv(db, clock, seed) && AllEnabled(db, clock, steps)
    ensures RowsIn(RunLive(db, steps), t) == RowsIn(db, t) + AllNewRows(steps, t)
    decreases |steps|
  {
    hide Inv, After, Enabled, RowsIn, NewRows;
    if steps != [] {
      StepKeeps(db, clock, steps[0], seed);
      StepInserts(db, clock, steps[0], seed, t);
      RunInserts(After(db, steps[0]), steps[0].now, steps[1..], seed, t);
    }
  }

  lemma {:induction false} NoNewRowsIff(steps: seq<Step>, t: Table)
    ensures AllNewRows(steps, t) == 0 <==> forall k :: 0 <= k < |steps| ==> NewRows(steps[k], t) == 0
  {
    hide NewRows;
    if steps != [] {
      NoNewRowsIff(steps[1..], t);
      assert forall k :: 1 <= k < |steps| ==> steps[k] == steps[1..][k - 1];
    }
  }

  lemma {:induction false} NewRowsConcat(a: seq<Step>, b: seq<Step>, t: Table)
    ensures AllNewRows(a + b, t) == AllNewRows(a, t) + AllNewRows(b, t)
  {
    hide NewRows;
    if a == [] {
      assert a + b == b;
    } else {
      assert (a + b)[1..] == a[1..] + b;
      NewRowsConcat(a[1..], b, t);
    }
  }

  // ---------------------------------------------------------------- money

  /** The amounts of the purchases among these events. */
  function Spent(steps: seq<Step>): int
    decreases |steps|
  {
    if steps == [] then 0
    else (if steps[0].Bought? then 100 * steps[0].draw.cents else 0) + Spent(steps[1..])
  }

  lemma StatusKeepsTotal(txns: seq<Txn>, event: Id, now: nat)
    ensures TotalAmount(Map(txns, CompleteTxn(event, now))) == TotalAmount(txns)
  {
    forall t | t in txns ensures OrZero(TXN_AMOUNT)(CompleteTxn(event, now)(t)) == OrZero(TXN_AMOUNT)(t) {
      StatusKeepsAmount(event, now, t);
    }
    SumOfMap(txns, CompleteTxn(event, now), OrZero(TXN_AMOUNT), OrZero(TXN_AMOUNT));
  }

  lemma NewTxnTotal(txns: seq<Txn>, d: Draw, now: nat)
    ensures TotalAmount(txns + [NewTxn(d, now)]) == TotalAmount(txns) + 100 * d.cents
  {
    NewTxnAmount(d, now);
    SumConcat(txns, [NewTxn(d, now)], OrZero(TXN_AMOUNT));
    assert [NewTxn(d, now)][1..] == [];
  }

  lemma StepSpends(db: Db, clock: nat, s: Step, seed: int)
    requires Inv(db, clock, seed) && Enabled(db, clock, s)
    ensures TotalAmount(After(db, s).txns) == TotalAmount(db.txns) + if s.Bought? then 100 * s.draw.cents else 0
  {
    match s
    case Bought(d, now) =>
      SeededProducts(db, d.vendor);
      NewTxnTotal(db.txns, d, now);
    case TxnCompleted(event, now) => StatusKeepsTotal(db.txns, event, now);
    case _ =>
  }

  /** Purchases add their amounts to the transactions, and nothing else changes the total. */
  lemma {:induction false} RunSpends(db: Db, clock: nat, steps: seq<Step>, seed: int)
    requires Inv(db, clock, seed) && AllEnabled(db, clock, steps)
    ensures TotalAmount(RunLive(db, steps).txns) == TotalAmount(db.txns) + Spent(steps)
    decreases |steps|
  {
    hide Inv, After, Enabled;
    if steps != [] {
      StepKeeps(db, clock, steps[0], seed);
      StepSpends(db, clock, steps[0], seed);
      RunSpends(After(db, steps[0]), steps[0].now, steps[1..], seed);
    }
  }

  lemma TwoLines(lines: seq<Item>, t: Txn)
    requires GoodLines(lines, t)
    ensures Sum(lines, OrZero(ITEM_REVENUE)) == OrZero(TXN_AMOUNT)(t)
  {
    var a, b := lines[0], lines[1];
    assert lines == [a] + [b] && [a][1..] == [] && [b][1..] == [];
    SumConcat([a], [b], OrZero(ITEM_REVENUE));
    assert OrZero(ITEM_REVENUE)(a) == a.price && OrZero(ITEM_REVENUE)(b) == b.price;
  }

  /** In a live database the lines are worth what the transactions are. */
  lemma LiveRevenue(db: Db, clock: nat, seed: int)
    requires Inv(db, clock, seed)
    ensures Revenue(db.items) == TotalAmount(db.txns)
  {
    forall t | t in db.txns
      ensures Sum(Group(db.items, ITEM_EVENT, t.code), OrZero(ITEM_REVENUE)) == OrZero(TXN_AMOUNT)(t)
    {
      TwoLines(Group(db.items, ITEM_EVENT, t.code), t);
    }
    forall i | i in db.items ensures i.event in Map(db.txns, TXN_CODE) {
      assert TxnBy(db.txns, i.event, clock);
      var t :| t in db.txns && t.code == i.event;
      var k :| 0 <= k < |db.txns| && db.txns[k] == t;
      assert Map(db.txns, TXN_CODE)[k] == i.event;
    }
    LinesWorth(db.txns, db.items);
  }
}

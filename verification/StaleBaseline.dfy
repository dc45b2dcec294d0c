/** A run whose baseline comes from the past. */
module StaleBaseline {
  import opened BaselineRace
  import opened BrokerModel
  import opened ControlModels
  import opened ControlTables
  import opened Convergence
  import opened ExecutionSystem
  import opened Ledger
  import opened ProtectionLaws
  import opened ReconciliationModel
  import opened SampleRuns
  import opened SystemInvariants
  import opened SystemTheorems

  /** One share costs more than a cent is worth, so the fill moves more than the tolerance. */
  const PRICE: Price := 10_001

  /** A snapshot is taken, the order fills, the store learns of the fill, and only then the baseline is taken. */
  function FillBehindSnapshot(): seq<Label> {
    Sending() + [TakeSnapshot(2)] + [MarketFill(KeyFor(1), 2, PRICE, 3)] + [DeliverEvent(1)]
  }

  function Sights(): seq<Sight> { [Sight(SentBroker(), 2)] }

  lemma BehindRun()
    ensures Run(NewSystem(CASH), FillBehindSnapshot())
            == SentSystem().(held := Sights(), broker := FilledBroker(PRICE, 3), db := FilledTables(PRICE, 3))
  {
    var fill := MarketFill(KeyFor(1), 2, PRICE, 3);
    assert FillBehindSnapshot() == ((Sending() + [TakeSnapshot(2)]) + [fill]) + [DeliverEvent(1)];
    var s := SentSystem().(held := Sights());
    assert Step(SentSystem(), TakeSnapshot(2)) == s by {
      hide SentBroker, SentTables;
      assert SentSystem().held + [Sight(SentBroker(), 2)] == Sights();
    }
    assert s.broker == SentBroker() && s.db == SentTables();
    assert FilledBroker(PRICE, 3).events[1] == FillEvent(PRICE, 3) && |FilledBroker(PRICE, 3).events| == 2;
    assert FilledTables(PRICE, 3) == Ingest(SentTables(), FillEvent(PRICE, 3)).db;
    hide *;
    Sent();
    Next(Sending(), TakeSnapshot(2), SentSystem(), s);
    MarketFilled(s, PRICE, 3);
    var filled := s.(broker := FilledBroker(PRICE, 3));
    Next(Sending() + [TakeSnapshot(2)], fill, s, filled);
    DeliveredBy(filled, 1, FillEvent(PRICE, 3));
    Next((Sending() + [TakeSnapshot(2)]) + [fill], DeliverEvent(1), filled, filled.(db := FilledTables(PRICE, 3)));
  }

  lemma CashFlowOfOne(e: BrokerEvent)
    ensures CashFlow({e}) == CashEffect(e)
  {
    EmptyLedger();
    CashInsert({}, e);
    assert {} + {e} == {e};
  }

  lemma MovedBehind()
    ensures var s := Run(NewSystem(CASH), FillBehindSnapshot());
            InSight(s, 0) && MovedSince(s, TakeBaseline(0)) == 2 * PRICE
  {
    hide Run, SentTables, FilledTables;
    BehindRun();
    FillStored(PRICE, 3);
    CashFlowOfOne(ACK);
    CashFlowOfOne(FillEvent(PRICE, 3));
    assert EventSet(SentBroker().events) == {ACK};
    hide CashFlow;
  }

  lemma TakenAs(s: System, sight: nat)
    requires InSight(s, sight) && s.db.baseline.None?
    ensures var after := Step(s, TakeBaseline(sight));
            && after == s.(db := after.db) && after.db == s.db.(baseline := after.db.baseline) && after.db.baseline.Some?
  {
    hide Snapshot;
  }

  /** The state in which the stale baseline has been taken. */
  lemma StaleRun() returns (t: System)
    ensures t == Run(NewSystem(CASH), FillBehindSnapshot() + [TakeBaseline(0)])
    ensures t.broker == FilledBroker(PRICE, 3) && t.db == FilledTables(PRICE, 3).(baseline := t.db.baseline) && t.db.baseline.Some?
    ensures Run(NewSystem(CASH), FillBehindSnapshot()).db.baseline.None?
  {
    var s := SentSystem().(held := Sights(), broker := FilledBroker(PRICE, 3), db := FilledTables(PRICE, 3));
    assert s.db == FilledTables(PRICE, 3) && s.broker == FilledBroker(PRICE, 3);
    assert InSight(s, 0);
    hide *;
    BehindRun();
    FillStored(PRICE, 3);
    TakenAs(s, 0);
    RunOn(FillBehindSnapshot(), TakeBaseline(0));
    t := Run(NewSystem(CASH), FillBehindSnapshot() + [TakeBaseline(0)]);
  }

  lemma FilledOrders()
    ensures FilledBroker(PRICE, 3).orders.Keys == {KeyFor(1)} && !Uncovered(FilledBroker(PRICE, 3).orders)
  {
    hide IntentFor, KeyFor, FillEvent;
    assert FilledBroker(PRICE, 3).orders.Keys == {KeyFor(1)};
  }

  lemma NothingShort(moves: seq<Label>, b: Broker)
    requires Run(NewSystem(CASH), moves).broker == b && !Uncovered(b.orders)
    ensures Shortfalls(b) == {}
  {
    hide *;
    RunKeeps(CASH, moves);
    BrokerOf(Run(NewSystem(CASH), moves), CASH);
    ShortfallsExactly(b, CASH);
  }

  lemma CashAlone(b: Broker, drift: int)
    requires Shortfalls(b) == {} && Abs(drift) > CENT
    ensures ReportOf(b, drift) == Report(Blocked, {CashMismatch(USD, b.cash + drift, b.cash)}, true)
  {
    hide Shortfalls;
  }

  lemma NothingRaisesStale(db: Tables, startingCash: Money, asOf: Time, at: Time)
    requires var filled := FilledTables(PRICE, 3); db.gate == filled.gate && db.runs == filled.runs && db.outbox == filled.outbox
    ensures !Raises(db, FilledBroker(PRICE, 3), startingCash, asOf, at)
  {
    hide *;
    FilledOrders();
    FillStored(PRICE, 3);
    SentRow();
    NothingRaises(db, FilledBroker(PRICE, 3), startingCash, asOf, at);
  }

  /** The baseline race happens: the baseline is taken from a snapshot that does not know a fill the store has already
      applied. A reconciliation of the current broker, whatever its times, then blocks on exactly the price of that fill,
      although store and broker agree on what was filled. */
  lemma StaleBaselineBlocks(asOf: Time, at: Time)
    ensures var t := Run(NewSystem(CASH), FillBehindSnapshot() + [TakeBaseline(0)] + []);
            && BrokerListed(t.broker) && KeyFor(1) in t.db.intents && KeyFor(1) in t.broker.orders
            && t.db.intents[KeyFor(1)].filled == t.broker.orders[KeyFor(1)].filled == 2
            && var r := Reconcile(t.db, Snapshot(t.broker, asOf), at);
            r.Ok? && r.value.1 == Report(Blocked, {CashMismatch(USD, t.broker.cash + 2 * PRICE, t.broker.cash)}, true)
  {
    var before, move, none := FillBehindSnapshot(), TakeBaseline(0), [];
    assert before + [move] + none == before + [move];
    assert KeyFor(1) in FilledBroker(PRICE, 3).orders && FilledBroker(PRICE, 3).orders[KeyFor(1)].filled == 2;
    assert Abs(2 * PRICE) > CENT;
    hide *;
    FilledOrders();
    var t := StaleRun();
    NothingShort(before + [move], t.broker);
    CashAlone(t.broker, 2 * PRICE);
    FillStored(PRICE, 3);
    MovedBehind();
    RaceExactly(CASH, before, move, none, asOf, at);
    NothingRaisesStale(t.db, CASH, asOf, at);
    ConvergesAfterAnyRun(CASH, before + [move] + none, asOf, at);
  }
}

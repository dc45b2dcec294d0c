/** A run in which a late fill breaches the capacity. */
module BreachedCapacity {
  import opened BrokerModel
  import opened Capacity
  import opened ControlModels
  import opened ControlTables
  import opened ExecutionSystem
  import opened FreezeGate
  import opened SampleRuns
  import opened StoreRuns

  /** A second worker under the same lease carries the cancel to the broker, where it succeeds. */
  function Cancelling(): seq<Label> {
    Sending() + [StartWorker(1, LEASE)] + [StoreStep(OpRequestCancel(IntentFor(1).id, 0))] + [WorkerClaimCancel(1, 2)]
    + [WorkerValidate(1, 2)] + [WorkerSend(1, 2)]
  }

  /** The cancel is stored, the freed capacity staged again, and then the broker fills a share of the cancelled order. */
  function LateFill(): seq<Label> {
    Cancelling() + [DeliverEvent(1)] + [Staging(2)] + [MarketFill(KeyFor(1), 1, 50, 3)] + [DeliverEvent(2)]
  }

  /** What the second worker sees. */
  ghost predicate Seen(moves: seq<Label>, db: Tables, b: Broker, phase: Phase) {
    var s := Run(NewSystem(CASH), moves);
    s.db == db && s.broker == b && 1 in s.workers && s.workers[1] == Worker(LEASE, phase)
  }

  lemma StartIs(s: System)
    requires s.broker == SentBroker()
    ensures var t := Step(s, StartWorker(1, LEASE)); t.db == s.db && t.broker == s.broker && t.workers == s.workers[1 := Worker(LEASE, Idle)]
  {
    assert AdvanceFence(s.broker, 1).broker == s.broker && AdvanceFence(s.broker, 1).result.Ok?;
    hide AdvanceFence, SentBroker;
  }

  lemma SecondStarts()
    ensures Seen(Sending() + [StartWorker(1, LEASE)], SentTables(), SentBroker(), Idle)
  {
    hide Run, Step, SentTables, SentBroker, Sending;
    Sent();
    RunOn(Sending(), StartWorker(1, LEASE));
    StartIs(Run(NewSystem(CASH), Sending()));
  }

  function AskedTables(): Tables { RequestCancel(SentTables(), IntentFor(1).id, 0).db }

  /** The parts of the tables that the rest of the run reads. */
  predicate Shows(db: Tables, status: ExecutionStatus, filled: nat, held: ReservationStatus, inbox: map<EventId, InboxStatus>) {
    && db.intents.Keys == {KeyFor(1)} && db.intents[KeyFor(1)].intent == IntentFor(1)
    && db.intents[KeyFor(1)].status == status && db.intents[KeyFor(1)].filled == filled
    && db.reservations == map[ReservationId(1, 0) := ReservationRow(ReservationFor(1), held, filled)]
    && db.gate == Unfreeze(NEW_GATE) && db.capsules.Keys == {1} && db.outbox.Keys == {KeyFor(1)} && db.inbox == inbox
    && db.leases == map[0 := LEASE]
  }

  lemma AskedIs()
    ensures Shows(AskedTables(), CancelRequested, 0, Active, map[])
    ensures AskedTables().cancels == map[KeyFor(1) := CancelRow(IntentFor(1).id, OutboxStatus.Pending, None, 0)]
    ensures AskedTables().cancelOrder == [KeyFor(1)]
  {
    SentRow();
    SentLease();
    var none: map<ClientOrderKey, CancelRow> := map[];
    var row := CancelRow(IntentFor(1).id, OutboxStatus.Pending, None, 0);
    assert none[KeyFor(1) := row] == map[KeyFor(1) := row];
    hide SentTables, Unfreeze, ReservationFor;
  }

  lemma AskIs(op: StoreOp)
    requires op == OpRequestCancel(IntentFor(1).id, 0)
    ensures ApplyOp(SentTables(), op) == AskedTables() && Unguarded(op)
  {
    hide RequestCancel, SentTables;
  }

  /** A transaction of another party between two moves. */
  lemma StoreMoves(moves: seq<Label>, db: Tables, b: Broker, phase: Phase, op: StoreOp, after: Tables)
    requires Seen(moves, db, b, phase) && Unguarded(op) && ApplyOp(db, op) == after
    ensures Seen(moves + [StoreStep(op)], after, b, phase)
  {
    hide Run, ApplyOp, Unguarded, Step;
    RunOn(moves, StoreStep(op));
    StoreStepIs(Run(NewSystem(CASH), moves), op, after);
  }

  lemma SecondAsks()
    ensures Seen(Sending() + [StartWorker(1, LEASE)] + [StoreStep(OpRequestCancel(IntentFor(1).id, 0))], AskedTables(), SentBroker(), Idle)
  {
    hide *;
    SecondStarts();
    AskIs(OpRequestCancel(IntentFor(1).id, 0));
    StoreMoves(Sending() + [StartWorker(1, LEASE)], SentTables(), SentBroker(), Idle, OpRequestCancel(IntentFor(1).id, 0), AskedTables());
  }

  function CancelTables(): Tables { ClaimNextCancel(AskedTables(), LEASE, 2).db }

  lemma AskedIsFirst(db: Tables)
    requires db.cancels == map[KeyFor(1) := CancelRow(IntentFor(1).id, OutboxStatus.Pending, None, 0)] && db.cancelOrder == [KeyFor(1)]
    requires HasIntent(db, IntentFor(1).id)
    ensures FirstPendingCancel(db, db.cancelOrder) == Some(KeyFor(1))
  {
    assert db.cancelOrder[0] == KeyFor(1);
    hide HasIntent, IntentFor, KeyFor;
  }

  lemma CancelClaims(db: Tables, k: ClientOrderKey, id: IntentId)
    requires LeaseCurrent(db, LEASE, 2) && FirstPendingCancel(db, db.cancelOrder) == Some(k)
    requires k in db.cancels && db.cancels[k].intentId == id && id.key in db.intents
    ensures var claim := ClaimNextCancel(db, LEASE, 2);
            claim.result == Ok(Some(db.intents[id.key].intent)) && claim.db == db.(cancels := claim.db.cancels)
  {
    hide LeaseCurrent, FirstPendingCancel;
  }

  lemma CancelClaimIs()
    ensures ClaimNextCancel(AskedTables(), LEASE, 2).result == Ok(Some(IntentFor(1))) && Shows(CancelTables(), CancelRequested, 0, Active, map[])
  {
    var db, id := AskedTables(), IntentFor(1).id;
    assert CancelTables() == ClaimNextCancel(db, LEASE, 2).db && id.key == KeyFor(1);
    hide AskedTables, CancelTables, ClaimNextCancel, LeaseCurrent, FirstPendingCancel, Unfreeze, ReservationFor, IntentFor, KeyFor;
    AskedIs();
    LeaseHolds(db, 2);
    AskedIsFirst(db);
    CancelClaims(db, KeyFor(1), id);
  }

  lemma SecondClaims(moves: seq<Label>, db: Tables, b: Broker, intent: ExecutionIntent)
    requires Seen(moves, db, b, Idle) && ClaimNextCancel(db, LEASE, 2).result == Ok(Some(intent))
    ensures Seen(moves + [WorkerClaimCancel(1, 2)], ClaimNextCancel(db, LEASE, 2).db, b, CancelClaimed(intent))
  {
    RunOn(moves, WorkerClaimCancel(1, 2));
    hide Run, ClaimNextCancel;
  }

  lemma SecondValidates(moves: seq<Label>, db: Tables, b: Broker, intent: ExecutionIntent)
    requires Seen(moves, db, b, CancelClaimed(intent)) && LeaseCurrent(db, LEASE, 2)
    ensures Seen(moves + [WorkerValidate(1, 2)], db, b, CancelValidated(intent))
  {
    RunOn(moves, WorkerValidate(1, 2));
    hide Run, LeaseCurrent;
  }

  const CANCELLED := BrokerEvent(EventId(1, KeyFor(1), CancelAck, 2, 0, None, 0), 2, 2)

  function CancelledBroker(): Broker {
    Broker(CASH, 1, 2, 3, map[KeyFor(1) := BrokerOrder(1, IntentFor(1), OrderCancelled, 0, false, 2)], [KeyFor(1)], [ACK, CANCELLED], map[], [])
  }

  lemma CancelIs()
    ensures Cancel(SentBroker(), KeyFor(1), 1, 0, 2) == Reply(CancelledBroker(), Ok([CANCELLED]))
  {
    var order := BrokerOrder(1, IntentFor(1), OrderAccepted, 0, false, 2);
    assert map[KeyFor(1) := order][KeyFor(1) := order.(status := OrderCancelled)] == CancelledBroker().orders;
    assert [ACK] + [CANCELLED] == [ACK, CANCELLED];
    var events: seq<BrokerEvent> := [];
    assert events + [CANCELLED] == [CANCELLED];
  }

  lemma SecondSends(moves: seq<Label>, db: Tables, b: Broker, intent: ExecutionIntent, after: Broker, answer: seq<BrokerEvent>)
    requires Seen(moves, db, b, CancelValidated(intent)) && Cancel(b, intent.Key(), 1, 0, 2) == Reply(after, Ok(answer))
    ensures Seen(moves + [WorkerSend(1, 2)], db, after, CancelAnswered(intent, answer))
  {
    RunOn(moves, WorkerSend(1, 2));
    hide Run, Cancel;
  }

  lemma CancelSent()
    ensures Seen(Cancelling(), CancelTables(), CancelledBroker(), CancelAnswered(IntentFor(1), [CANCELLED]))
    ensures Shows(CancelTables(), CancelRequested, 0, Active, map[])
  {
    var intent := IntentFor(1);
    var asked := Sending() + [StartWorker(1, LEASE)] + [StoreStep(OpRequestCancel(intent.id, 0))];
    assert Cancelling() == ((asked + [WorkerClaimCancel(1, 2)]) + [WorkerValidate(1, 2)]) + [WorkerSend(1, 2)];
    assert CancelTables() == ClaimNextCancel(AskedTables(), LEASE, 2).db && intent.Key() == KeyFor(1);
    CancelClaimIs();
    assert CancelTables().leases == map[0 := LEASE];
    hide *;
    SecondAsks();
    SecondClaims(asked, AskedTables(), SentBroker(), intent);
    LeaseHolds(CancelTables(), 2);
    SecondValidates(asked + [WorkerClaimCancel(1, 2)], CancelTables(), SentBroker(), intent);
    CancelIs();
    SecondSends((asked + [WorkerClaimCancel(1, 2)]) + [WorkerValidate(1, 2)], CancelTables(), SentBroker(), intent, CancelledBroker(), [CANCELLED]);
  }

  function CancelStored(): Tables { Ingest(CancelTables(), CANCELLED).db }

  lemma IngestParts(db: Tables, e: BrokerEvent)
    requires e.id !in db.inbox && e.Key() in db.intents && (e.IsFill() ==> e.id.fillPrice.Some?)
    ensures var after, row := Ingest(db, e).db, AppliedRow(db.intents[e.Key()], e);
            && after.intents == db.intents[e.Key() := row] && after.inbox == db.inbox[e.id := Applied]
            && after.reservations == UpdatedReservation(
                                       db.reservations, db.intents[e.Key()].intent.id.reservationId, row.filled, e.Key().quantity, row.status)
            && after.gate == db.gate && after.capsules == db.capsules && after.outbox == db.outbox && after.leases == db.leases
  {
    hide AppliedRow, UpdatedReservation, CashEffect;
  }

  lemma CancelledRow(row: IntentRow)
    requires row.intent == IntentFor(1) && row.status == CancelRequested && row.filled == 0
    ensures var after := AppliedRow(row, CANCELLED);
            after.status == ExecutionStatus.Cancelled && after.filled == 0 && after.intent == row.intent
  {
  }

  lemma Rewritten(decision: Digest, held: ReservationStatus, filled: nat, status: ExecutionStatus, now: ReservationStatus, consumed: nat)
    requires now == ReservationStatusFor(consumed, 2, status)
    ensures UpdatedReservation(map[ReservationId(decision, 0) := ReservationRow(ReservationFor(decision), held, filled)],
                               ReservationId(decision, 0), consumed, 2, status)
            == map[ReservationId(decision, 0) := ReservationRow(ReservationFor(decision), now, consumed)]
  {
    hide ReservationFor, ReservationStatusFor;
    var row := ReservationRow(ReservationFor(decision), held, filled);
    assert map[ReservationId(decision, 0) := row][ReservationId(decision, 0) := ReservationRow(ReservationFor(decision), now, consumed)]
           == map[ReservationId(decision, 0) := ReservationRow(ReservationFor(decision), now, consumed)];
  }

  lemma CancelShown(db: Tables, after: Tables, row: IntentRow)
    requires Shows(db, CancelRequested, 0, Active, map[])
    requires row.intent == IntentFor(1) && row.status == ExecutionStatus.Cancelled && row.filled == 0
    requires after.intents == db.intents[KeyFor(1) := row] && after.inbox == db.inbox[CANCELLED.id := Applied]
    requires after.reservations == map[ReservationId(1, 0) := ReservationRow(ReservationFor(1), Released, 0)]
    requires after.gate == db.gate && after.capsules == db.capsules && after.outbox == db.outbox && after.leases == db.leases
    ensures Shows(after, ExecutionStatus.Cancelled, 0, Released, map[CANCELLED.id := Applied])
  {
    hide Unfreeze, ReservationFor, IntentFor, KeyFor;
    assert after.intents.Keys == db.intents.Keys;
    var none: map<EventId, InboxStatus> := map[];
    assert none[CANCELLED.id := Applied] == map[CANCELLED.id := Applied];
  }

  /** The stored cancel releases the reservation. */
  lemma CancelStores(db: Tables)
    requires Shows(db, CancelRequested, 0, Active, map[])
    ensures Shows(Ingest(db, CANCELLED).db, ExecutionStatus.Cancelled, 0, Released, map[CANCELLED.id := Applied])
  {
    var row := AppliedRow(db.intents[KeyFor(1)], CANCELLED);
    assert CANCELLED.Key() == KeyFor(1) && !CANCELLED.IsFill() && CANCELLED.id !in db.inbox;
    assert ReservationStatusFor(0, 2, ExecutionStatus.Cancelled) == Released;
    assert IntentFor(1).id.reservationId == ReservationId(1, 0) && KeyFor(1).quantity == 2;
    assert db.intents[KeyFor(1)].intent == IntentFor(1) && KeyFor(1) in db.intents;
    assert db.intents[KeyFor(1)].status == CancelRequested && db.intents[KeyFor(1)].filled == 0;
    assert db.reservations == map[ReservationId(1, 0) := ReservationRow(ReservationFor(1), Active, 0)];
    hide *;
    IngestParts(db, CANCELLED);
    CancelledRow(db.intents[KeyFor(1)]);
    Rewritten(1, Active, 0, ExecutionStatus.Cancelled, Released, 0);
    CancelShown(db, Ingest(db, CANCELLED).db, row);
  }

  lemma CancelStoredIs()
    ensures Shows(CancelStored(), ExecutionStatus.Cancelled, 0, Released, map[CANCELLED.id := Applied])
  {
    assert CancelStored() == Ingest(CancelTables(), CANCELLED).db;
    hide *;
    CancelSent();
    CancelStores(CancelTables());
  }

  lemma ShownFits(db: Tables, inbox: map<EventId, InboxStatus>)
    requires Shows(db, ExecutionStatus.Cancelled, 0, Released, inbox)
    ensures Fits(db, 2)
  {
    OpenedFits();
    assert db.gate == OpenedTables().gate;
    hide AnyBlocking, Unfreeze, ReservationFor;
  }

  lemma CancelledFits()
    ensures Fits(CancelStored(), 2)
  {
    hide *;
    CancelStoredIs();
    ShownFits(CancelStored(), map[CANCELLED.id := Applied]);
  }

  function LateEvent(): BrokerEvent { BrokerEvent(EventId(1, KeyFor(1), PartialFill, 3, 1, Some(50), 0), 3, 3) }

  function LateBroker(): Broker {
    Broker(CASH - 50, 1, 2, 4, map[KeyFor(1) := BrokerOrder(1, IntentFor(1), OrderPartiallyFilled, 1, false, 2)], [KeyFor(1)],
           [ACK, CANCELLED, LateEvent()], map[0 := 1], [])
  }

  /** The broker still fills what is open of a cancelled order. */
  lemma LateIs()
    ensures FillAt(CancelledBroker(), KeyFor(1), 1, 50, 3).broker == LateBroker()
  {
    var order := BrokerOrder(1, IntentFor(1), OrderCancelled, 0, false, 2);
    assert map[KeyFor(1) := order][KeyFor(1) := order.(filled := 1, status := OrderPartiallyFilled)] == LateBroker().orders;
    assert [ACK, CANCELLED] + [LateEvent()] == [ACK, CANCELLED, LateEvent()];
    assert map[][0 := 1] == map[0 := 1];
  }

  lemma FilledLateBy(s: System)
    requires s.broker == CancelledBroker()
    ensures Step(s, MarketFill(KeyFor(1), 1, 50, 3)) == s.(broker := LateBroker())
  {
    hide FillAt, CancelledBroker, LateBroker;
    LateIs();
  }

  function LateTables(): Tables { Ingest(StagedTables(CancelStored(), 2), LateEvent()).db }

  lemma LateRun()
    ensures Run(NewSystem(CASH), LateFill()).db == LateTables()
  {
    var late := MarketFill(KeyFor(1), 1, 50, 3);
    var m0, m1, m2 := Cancelling(), Cancelling() + [DeliverEvent(1)], Cancelling() + [DeliverEvent(1)] + [Staging(2)];
    assert LateFill() == (m2 + [late]) + [DeliverEvent(2)];
    var s := Run(NewSystem(CASH), m0);
    assert CancelledBroker().events[1] == CANCELLED && |CancelledBroker().events| == 2;
    assert LateBroker().events[2] == LateEvent() && |LateBroker().events| == 3;
    assert CancelStored() == Ingest(CancelTables(), CANCELLED).db && LateTables() == Ingest(StagedTables(CancelStored(), 2), LateEvent()).db;
    CancelSent();
    assert s.db == CancelTables() && s.broker == CancelledBroker();
    hide *;
    DeliveredBy(s, 1, CANCELLED);
    Next(m0, DeliverEvent(1), s, s.(db := CancelStored()));
    CancelledFits();
    StagingStepIs(s.(db := CancelStored()), 2);
    var staged := s.(db := StagedTables(CancelStored(), 2));
    Next(m1, Staging(2), s.(db := CancelStored()), staged);
    FilledLateBy(staged);
    Next(m2, late, staged, staged.(broker := LateBroker()));
    DeliveredBy(staged.(broker := LateBroker()), 2, LateEvent());
    Next(m2 + [late], DeliverEvent(2), staged.(broker := LateBroker()), staged.(broker := LateBroker(), db := LateTables()));
  }

  /** The late fill writes the released reservation back. */
  lemma LateReservations()
    ensures LateTables().reservations ==
            map[ReservationId(1, 0) := ReservationRow(ReservationFor(1), PartiallyConsumed, 1),
                ReservationId(2, 0) := ReservationRow(ReservationFor(2), Active, 0)]
  {
    CancelStoredIs();
    StagedAround(CancelStored());
    var db := StagedTables(CancelStored(), 2);
    assert LateTables() == Ingest(db, LateEvent()).db;
    assert LateEvent().id != CANCELLED.id && LateEvent().Key() == KeyFor(1);
    assert IntentFor(1).id.reservationId == ReservationId(1, 0) && KeyFor(1).quantity == 2;
    hide CancelStored, StagedTables, LateTables, ReservationFor, AppliedRow, Ingest, UpdatedReservation, LateEvent, IntentFor, KeyFor, Unfreeze;
    IngestParts(db, LateEvent());
    LateRow(db.intents[KeyFor(1)]);
    RewrittenFirst();
  }

  lemma StagedAround(db: Tables)
    requires Shows(db, ExecutionStatus.Cancelled, 0, Released, map[CANCELLED.id := Applied])
    ensures var after := StagedTables(db, 2);
            && KeyFor(1) in after.intents && after.intents[KeyFor(1)] == db.intents[KeyFor(1)] && after.inbox == map[CANCELLED.id := Applied]
            && after.reservations == map[ReservationId(1, 0) := ReservationRow(ReservationFor(1), Released, 0),
                                         ReservationId(2, 0) := ReservationRow(ReservationFor(2), Active, 0)]
  {
    hide ReservationFor, Unfreeze;
    assert KeyFor(1) != KeyFor(2);
    var first := map[ReservationId(1, 0) := ReservationRow(ReservationFor(1), Released, 0)];
    assert first[ReservationId(2, 0) := ReservationRow(ReservationFor(2), Active, 0)]
           == map[ReservationId(1, 0) := ReservationRow(ReservationFor(1), Released, 0),
                  ReservationId(2, 0) := ReservationRow(ReservationFor(2), Active, 0)];
  }

  lemma RewrittenFirst()
    ensures UpdatedReservation(map[ReservationId(1, 0) := ReservationRow(ReservationFor(1), Released, 0),
                                   ReservationId(2, 0) := ReservationRow(ReservationFor(2), Active, 0)], ReservationId(1, 0), 1, 2, PartiallyFilled)
            == map[ReservationId(1, 0) := ReservationRow(ReservationFor(1), PartiallyConsumed, 1),
                   ReservationId(2, 0) := ReservationRow(ReservationFor(2), Active, 0)]
  {
    hide ReservationFor;
    var rows := map[ReservationId(1, 0) := ReservationRow(ReservationFor(1), Released, 0),
                    ReservationId(2, 0) := ReservationRow(ReservationFor(2), Active, 0)];
    assert rows[ReservationId(1, 0) := ReservationRow(ReservationFor(1), PartiallyConsumed, 1)]
           == map[ReservationId(1, 0) := ReservationRow(ReservationFor(1), PartiallyConsumed, 1),
                  ReservationId(2, 0) := ReservationRow(ReservationFor(2), Active, 0)];
  }

  lemma LateRow(row: IntentRow)
    requires row.intent == IntentFor(1) && row.status == ExecutionStatus.Cancelled && row.filled == 0
    ensures var after := AppliedRow(row, LateEvent());
            after.filled == 1 && after.status == PartiallyFilled
  {
  }

  lemma HeldTwice(rows: map<ReservationId, ReservationRow>)
    requires rows == map[ReservationId(1, 0) := ReservationRow(ReservationFor(1), PartiallyConsumed, 1),
                         ReservationId(2, 0) := ReservationRow(ReservationFor(2), Active, 0)]
    ensures HeldNotional(rows, 0) == 2 * CAPACITY
  {
    var none: map<ReservationId, ReservationRow> := map[];
    var one := none[ReservationId(1, 0) := ReservationRow(ReservationFor(1), PartiallyConsumed, 1)];
    HeldOneMore(none, ReservationId(1, 0), ReservationRow(ReservationFor(1), PartiallyConsumed, 1), 0);
    HeldOneMore(one, ReservationId(2, 0), ReservationRow(ReservationFor(2), Active, 0), 0);
    assert rows == one[ReservationId(2, 0) := ReservationRow(ReservationFor(2), Active, 0)];
    assert HeldNotional(none, 0) == 0;
  }

  /** Without the no-reactivation condition the capacity does not hold: both decisions fit the capacity of the account
      when they were staged, the first was cancelled at the broker in between, and after a late fill of its order the
      account holds twice what it may. */
  lemma LateFillBreachesCapacity()
    ensures ReservationFor(1).capacity == ReservationFor(2).capacity == CAPACITY && ReservationFor(1).accountId == ReservationFor(2).accountId == 0
    ensures HeldNotional(Run(NewSystem(CASH), LateFill()).db.reservations, 0) == 2 * CAPACITY
  {
    hide Run, LateTables, HeldNotional, LateFill;
    LateRun();
    LateReservations();
    HeldTwice(LateTables().reservations);
  }
}

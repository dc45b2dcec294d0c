/** The run that the sample runs start from: a store is opened, a decision is staged, claimed and sent to the broker by a
    worker, and the order may be filled. Each sample run shows something that the control plane does not promise. */
module SampleRuns {
  import opened BrokerModel
  import opened ControlModels
  import opened ControlTables
  import opened Convergence
  import opened ExecutionSystem
  import opened FilledLaws
  import opened FreezeGate
  import opened StoreRuns
  import opened Sums

  /* ---------- Decisions, and the run that sends the first of them ---------- */

  const CASH: Money := 1_000_000
  const CAPACITY: nat := 100
  const LEASE := ExecutionLease(0, 0, 1, 0, 100)

  function KeyFor(decision: Digest): ClientOrderKey { ClientOrderKey(decision, 0, 0, Buy, 2, 50, 40, 60) }

  function IntentFor(decision: Digest): ExecutionIntent {
    ExecutionIntent(IntentId(KeyFor(decision), ReservationId(decision, 0)), ExecutionStatus.Approved, 0)
  }

  /** Each decision reserves all that the account may hold. */
  function ReservationFor(decision: Digest): RiskReservation {
    RiskReservation(ReservationId(decision, 0), 0, CAPACITY, CAPACITY, 2, 0, Active, 10)
  }

  function Staging(decision: Digest): Label {
    StoreStep(OpStage(DecisionCapsule(decision, 0, 0), ReservationFor(decision), IntentFor(decision)))
  }

  function Leasing(): seq<Label> { [StoreStep(OpUnfreeze), StoreStep(OpAcquireLease(0, 0, 0, 100))] }

  function StagingFirst(): seq<Label> { Leasing() + [Staging(1)] }

  function Starting(): seq<Label> { StagingFirst() + [StartWorker(0, LEASE)] }

  function Claiming(): seq<Label> { Starting() + [WorkerClaim(0, None, 1)] }

  function Validating(): seq<Label> { Claiming() + [WorkerValidate(0, 1)] }

  /** Opens the store, stages the first decision and sends it: the worker has the broker's answer in its hands. */
  function Sending(): seq<Label> { Validating() + [WorkerSend(0, 1)] }

  /* ---------- What single transactions make of the tables ---------- */

  function StagedTables(db: Tables, decision: Digest): Tables {
    db.(
      capsules := db.capsules[decision := DecisionCapsule(decision, 0, 0)],
      reservations := db.reservations[ReservationId(decision, 0) := ReservationRow(ReservationFor(decision), Active, 0)],
      intents := db.intents[KeyFor(decision) := IntentRow(IntentFor(decision), Outboxed, 0, None, 0, 2)],
      outbox := db.outbox[KeyFor(decision) := OutboxRow(IntentFor(decision), Pending, None, None)],
      outboxOrder := db.outboxOrder + [KeyFor(decision)])
  }

  /** A decision that is new to the store and fits. */
  predicate Fits(db: Tables, decision: Digest) {
    && !AnyBlocking(db.gate.tickets) && decision !in db.capsules
    && (forall id :: id in db.reservations ==> id.decisionId != decision && !Holding(db.reservations[id].status))
    && (forall k :: k in db.intents ==> k.decisionId != decision && db.intents[k].intent.id.reservationId != ReservationId(decision, 0))
    && KeyFor(decision) !in db.outbox
  }

  lemma NothingIsHeld(rows: map<ReservationId, ReservationRow>)
    requires forall id :: id in rows ==> !Holding(rows[id].status)
    ensures HeldNotional(rows, 0) == 0
  {
    SumZero(rows.Keys, HeldWeight(rows, 0));
  }

  lemma PairIs(db: Tables, decision: Digest)
    requires Fits(db, decision)
    ensures WithPair(db, DecisionCapsule(decision, 0, 0), ReservationFor(decision), IntentFor(decision)) == db.(
      capsules := db.capsules[decision := DecisionCapsule(decision, 0, 0)],
      reservations := db.reservations[ReservationId(decision, 0) := ReservationRow(ReservationFor(decision), Active, 0)],
      intents := db.intents[KeyFor(decision) := IntentRow(IntentFor(decision), ExecutionStatus.Approved, 0, None, 0, 1)])
  {
    hide AnyBlocking, Holding;
  }

  lemma EnqueueIs(db: Tables, decision: Digest)
    requires KeyFor(decision) !in db.outbox && KeyFor(decision) in db.intents
    requires db.intents[KeyFor(decision)] == IntentRow(IntentFor(decision), ExecutionStatus.Approved, 0, None, 0, 1)
    ensures Enqueue(db, IntentFor(decision)) == Ok(db.(
      outbox := db.outbox[KeyFor(decision) := OutboxRow(IntentFor(decision), Pending, None, None)],
      outboxOrder := db.outboxOrder + [KeyFor(decision)],
      intents := db.intents[KeyFor(decision) := IntentRow(IntentFor(decision), Outboxed, 0, None, 0, 2)]))
  {
  }

  lemma StagingIs(db: Tables, decision: Digest)
    requires Fits(db, decision)
    ensures Stage(db, DecisionCapsule(decision, 0, 0), ReservationFor(decision), IntentFor(decision)).db == StagedTables(db, decision)
  {
    var reservation, intent := ReservationFor(decision), IntentFor(decision);
    assert reservation.id !in db.reservations && intent.Key() !in db.intents;
    NothingIsHeld(db.reservations - {reservation.id});
    PairIs(db, decision);
    var paired := WithPair(db, DecisionCapsule(decision, 0, 0), reservation, intent);
    EnqueueIs(paired, decision);
    hide WithPair, Enqueue, HeldNotional, AnyBlocking;
    var k := KeyFor(decision);
    assert paired.intents[k := IntentRow(intent, Outboxed, 0, None, 0, 2)] == db.intents[k := IntentRow(intent, Outboxed, 0, None, 0, 2)];
  }

  function ClaimedTables(db: Tables): Tables
    requires KeyFor(1) in db.outbox && KeyFor(1) in db.intents
  {
    db.(
      outbox := db.outbox[KeyFor(1) := db.outbox[KeyFor(1)].(status := Claimed, fencingToken := Some(1), claimedAt := Some(1))],
      intents := db.intents[KeyFor(1) := Bump(db.intents[KeyFor(1)], Submitting)])
  }

  function OpenedTables(): Tables { NEW_TABLES.(gate := Unfreeze(NEW_GATE), leases := map[0 := LEASE]) }

  lemma OpenedFits()
    ensures Fits(OpenedTables(), 1) && !OpenedTables().gate.frozen && forall decision :: Fits(OpenedTables(), decision)
  {
  }

  /** The store once the first decision is with the broker and its answer has not been stored. */
  function SentTables(): Tables { ClaimedTables(StagedTables(OpenedTables(), 1)) }

  lemma ClaimIs()
    ensures var db := StagedTables(OpenedTables(), 1);
            ClaimNext(db, LEASE, None, 1) == Outcome(SentTables(), Ok(Some(IntentFor(1))))
  {
    var db := StagedTables(OpenedTables(), 1);
    OpenedFits();
    assert db.outboxOrder == [KeyFor(1)] && Claimable(db, KeyFor(1));
    assert FirstClaimable(db, db.outboxOrder) == Some(KeyFor(1));
    assert JudgeArm(db, KeyFor(1), None, 1) == ArmNotNeeded;
    assert LeaseCurrent(db, LEASE, 1);
    hide FirstClaimable, JudgeArm, LeaseCurrent, Unfreeze;
  }

  /* ---------- The broker ---------- */

  const ACK := BrokerEvent(EventId(1, KeyFor(1), Ack, 1, 0, None, 0), 1, 1)

  function FencedBroker(): Broker { NewBroker(CASH).(highestToken := 1) }

  /** The broker with the first order. */
  function SentBroker(): Broker {
    Broker(CASH, 1, 2, 2, map[KeyFor(1) := BrokerOrder(1, IntentFor(1), OrderAccepted, 0, false, 2)], [KeyFor(1)], [ACK], map[], [])
  }

  lemma SubmitIs()
    ensures Submit(FencedBroker(), IntentFor(1), 1, 1) == Reply(SentBroker(), Ok([ACK]))
  {
    assert map[][KeyFor(1) := BrokerOrder(1, IntentFor(1), OrderAccepted, 0, false, 2)]
           == map[KeyFor(1) := BrokerOrder(1, IntentFor(1), OrderAccepted, 0, false, 2)];
  }

  /* ---------- The run ---------- */

  function SentSystem(): System {
    System.System(SentTables(), SentBroker(), map[0 := Worker(LEASE, SubmitAnswered(IntentFor(1), [ACK]))], [1, 1], [])
  }

  lemma RunOn(moves: seq<Label>, move: Label)
    ensures Run(NewSystem(CASH), moves + [move]) == Step(Run(NewSystem(CASH), moves), move)
  {
    hide Step;
    assert (moves + [move])[..|moves|] == moves;
  }

  /** One more move of a run whose state is known. */
  lemma Next(moves: seq<Label>, move: Label, s: System, after: System)
    requires Run(NewSystem(CASH), moves) == s && Step(s, move) == after
    ensures Run(NewSystem(CASH), moves + [move]) == after
  {
    hide *;
    RunOn(moves, move);
  }

  lemma StoreStepIs(s: System, op: StoreOp, after: Tables)
    requires Unguarded(op) && ApplyOp(s.db, op) == after
    ensures Step(s, StoreStep(op)) == s.(db := after)
  {
    hide ApplyOp, Unguarded;
  }

  lemma LeaseIs()
    ensures ApplyOp(NEW_TABLES.(gate := Unfreeze(NEW_GATE)), OpAcquireLease(0, 0, 0, 100)) == OpenedTables()
  {
    hide Unfreeze;
    var none: map<Name, ExecutionLease> := map[];
    assert none[0 := LEASE] == map[0 := LEASE];
  }

  lemma Opened()
    ensures Run(NewSystem(CASH), Leasing()) == NewSystem(CASH).(db := OpenedTables())
  {
    var none: seq<Label> := [];
    var s := NewSystem(CASH);
    var unfrozen := NEW_TABLES.(gate := Unfreeze(NEW_GATE));
    LeaseIs();
    StoreStepIs(s, OpUnfreeze, unfrozen);
    StoreStepIs(s.(db := unfrozen), OpAcquireLease(0, 0, 0, 100), OpenedTables());
    assert Run(s, none) == s;
    assert Leasing() == (none + [StoreStep(OpUnfreeze)]) + [StoreStep(OpAcquireLease(0, 0, 0, 100))];
    hide *;
    Next(none, StoreStep(OpUnfreeze), s, s.(db := unfrozen));
    Next(none + [StoreStep(OpUnfreeze)], StoreStep(OpAcquireLease(0, 0, 0, 100)), s.(db := unfrozen), s.(db := OpenedTables()));
  }

  lemma StagingStepIs(s: System, decision: Digest)
    requires Fits(s.db, decision)
    ensures Step(s, Staging(decision)) == s.(db := StagedTables(s.db, decision))
  {
    hide Fits, Stage, StagedTables, ReservationFor, IntentFor;
    StagingIs(s.db, decision);
    var op := OpStage(DecisionCapsule(decision, 0, 0), ReservationFor(decision), IntentFor(decision));
    StoreStepIs(s, op, StagedTables(s.db, decision));
  }

  lemma Staged()
    ensures Run(NewSystem(CASH), StagingFirst()) == NewSystem(CASH).(db := StagedTables(OpenedTables(), 1))
  {
    var s := NewSystem(CASH).(db := OpenedTables());
    assert StagingFirst() == Leasing() + [Staging(1)];
    hide *;
    Opened();
    OpenedFits();
    StagingStepIs(s, 1);
    Next(Leasing(), Staging(1), s, s.(db := StagedTables(OpenedTables(), 1)));
  }

  function AtPhase(db: Tables, phase: Phase): System {
    System.System(db, FencedBroker(), map[0 := Worker(LEASE, phase)], [1], [])
  }

  lemma StartedBy(db: Tables)
    ensures Step(NewSystem(CASH).(db := db), StartWorker(0, LEASE)) == AtPhase(db, Idle)
  {
    var workers: map<Name, Worker> := map[];
    assert workers[0 := Worker(LEASE, Idle)] == map[0 := Worker(LEASE, Idle)];
  }

  lemma ClaimedBy(db: Tables, after: Tables, intent: ExecutionIntent)
    requires ClaimNext(db, LEASE, None, 1) == Outcome(after, Ok(Some(intent)))
    ensures Step(AtPhase(db, Idle), WorkerClaim(0, None, 1)) == AtPhase(after, SubmitClaimed(intent))
  {
    hide ClaimNext, FencedBroker;
    var workers := map[0 := Worker(LEASE, Idle)];
    assert workers[0 := Worker(LEASE, SubmitClaimed(intent))] == map[0 := Worker(LEASE, SubmitClaimed(intent))];
  }

  lemma ValidatedBy(db: Tables, intent: ExecutionIntent)
    requires LeaseCurrent(db, LEASE, 1)
    ensures Step(AtPhase(db, SubmitClaimed(intent)), WorkerValidate(0, 1)) == AtPhase(db, SubmitValidated(intent))
  {
    hide LeaseCurrent, FencedBroker;
    var workers := map[0 := Worker(LEASE, SubmitClaimed(intent))];
    assert workers[0 := Worker(LEASE, SubmitValidated(intent))] == map[0 := Worker(LEASE, SubmitValidated(intent))];
  }

  lemma SentBy(db: Tables, b: Broker, intent: ExecutionIntent, answer: seq<BrokerEvent>)
    requires Submit(FencedBroker(), intent, 1, 1) == Reply(b, Ok(answer))
    ensures Step(AtPhase(db, SubmitValidated(intent)), WorkerSend(0, 1))
            == System.System(db, b, map[0 := Worker(LEASE, SubmitAnswered(intent, answer))], [1, 1], [])
  {
    hide Submit, FencedBroker;
    var workers := map[0 := Worker(LEASE, SubmitValidated(intent))];
    assert workers[0 := Worker(LEASE, SubmitAnswered(intent, answer))] == map[0 := Worker(LEASE, SubmitAnswered(intent, answer))];
    assert [1] + [1] == [1, 1];
  }

  lemma LeaseHolds(db: Tables, at: Time)
    requires db.leases == map[0 := LEASE] && at < 100
    ensures LeaseCurrent(db, LEASE, at)
  {
  }

  lemma SentLease()
    ensures SentTables().leases == map[0 := LEASE]
  {
  }

  lemma ClaimedRun()
    ensures Run(NewSystem(CASH), Claiming()) == AtPhase(SentTables(), SubmitClaimed(IntentFor(1)))
  {
    var intent := IntentFor(1);
    var staged := StagedTables(OpenedTables(), 1);
    assert Starting() == StagingFirst() + [StartWorker(0, LEASE)] && Claiming() == Starting() + [WorkerClaim(0, None, 1)];
    hide *;
    Staged();
    StartedBy(staged);
    Next(StagingFirst(), StartWorker(0, LEASE), NewSystem(CASH).(db := staged), AtPhase(staged, Idle));
    ClaimIs();
    ClaimedBy(staged, SentTables(), intent);
    Next(Starting(), WorkerClaim(0, None, 1), AtPhase(staged, Idle), AtPhase(SentTables(), SubmitClaimed(intent)));
  }

  lemma Sent()
    ensures Run(NewSystem(CASH), Sending()) == SentSystem()
  {
    var intent := IntentFor(1);
    assert Validating() == Claiming() + [WorkerValidate(0, 1)] && Sending() == Validating() + [WorkerSend(0, 1)];
    assert SentSystem() == System.System(SentTables(), SentBroker(), map[0 := Worker(LEASE, SubmitAnswered(intent, [ACK]))], [1, 1], []);
    hide *;
    ClaimedRun();
    SentLease();
    LeaseHolds(SentTables(), 1);
    ValidatedBy(SentTables(), intent);
    Next(Claiming(), WorkerValidate(0, 1), AtPhase(SentTables(), SubmitClaimed(intent)), AtPhase(SentTables(), SubmitValidated(intent)));
    SubmitIs();
    SentBy(SentTables(), SentBroker(), intent, [ACK]);
    Next(Validating(), WorkerSend(0, 1), AtPhase(SentTables(), SubmitValidated(intent)), SentSystem());
  }

  /* ---------- The order is filled ---------- */

  function FillEvent(price: Price, at: Time): BrokerEvent { BrokerEvent(EventId(1, KeyFor(1), Fill, 2, 2, Some(price), 0), at, at) }

  function FilledBroker(price: Price, at: Time): Broker {
    Broker(CASH - 2 * price, 1, 2, 3, map[KeyFor(1) := BrokerOrder(1, IntentFor(1), OrderFilled, 2, false, 2)], [KeyFor(1)],
           [ACK, FillEvent(price, at)], map[0 := 2], [])
  }

  lemma FillIs(price: Price, at: Time)
    ensures FillAt(SentBroker(), KeyFor(1), 2, price, at).broker == FilledBroker(price, at)
  {
    var order := BrokerOrder(1, IntentFor(1), OrderAccepted, 0, false, 2);
    assert map[KeyFor(1) := order][KeyFor(1) := order.(filled := 2, status := OrderFilled)] == FilledBroker(price, at).orders;
    assert [ACK] + [FillEvent(price, at)] == [ACK, FillEvent(price, at)];
    assert map[][0 := 2] == map[0 := 2];
  }

  lemma MarketFilled(s: System, price: Price, at: Time)
    requires s.broker == SentBroker()
    ensures Step(s, MarketFill(KeyFor(1), 2, price, at)) == s.(broker := FilledBroker(price, at))
  {
    hide FillAt, SentBroker, FilledBroker;
    FillIs(price, at);
  }

  lemma DeliveredBy(s: System, index: nat, e: BrokerEvent)
    requires index < |s.broker.events| && s.broker.events[index] == e
    ensures Step(s, DeliverEvent(index)) == s.(db := Ingest(s.db, e).db)
  {
    hide Ingest;
  }

  lemma SentRow()
    ensures KeyFor(1) in SentTables().intents && KeyFor(1) in SentTables().outbox
    ensures var db := SentTables();
            && db.intents[KeyFor(1)] == IntentRow(IntentFor(1), Submitting, 0, None, 0, 3) && db.intents.Keys == {KeyFor(1)}
            && db.outbox[KeyFor(1)].intent == IntentFor(1) && db.outbox[KeyFor(1)].status == OutboxStatus.Claimed
            && db.inbox == map[] && db.applied == {} && db.baseline == None && db.runs == map[] && db.cancels == map[] && db.cancelOrder == []
            && db.gate == Unfreeze(NEW_GATE) && db.capsules.Keys == {1} && db.outbox.Keys == {KeyFor(1)}
            && db.reservations == map[ReservationId(1, 0) := ReservationRow(ReservationFor(1), Active, 0)]
  {
    hide Unfreeze;
    var none: map<ReservationId, ReservationRow> := map[];
    assert none[ReservationId(1, 0) := ReservationRow(ReservationFor(1), Active, 0)]
           == map[ReservationId(1, 0) := ReservationRow(ReservationFor(1), Active, 0)];
  }

  function FilledTables(price: Price, at: Time): Tables { Ingest(SentTables(), FillEvent(price, at)).db }

  /** The store after the fill: the intent is FILLED, its command still claimed. */
  lemma FillStored(price: Price, at: Time)
    ensures var db := FilledTables(price, at);
            && IsFilled(db.intents, KeyFor(1)) && db.intents[KeyFor(1)].filled == 2 && db.intents[KeyFor(1)].intent == IntentFor(1)
            && db.outbox == SentTables().outbox && db.applied == {FillEvent(price, at)}
            && db.baseline == None && db.runs == map[] && db.gate == Unfreeze(NEW_GATE)
  {
    hide SentTables, Ingest, Unfreeze;
    SentRow();
    IngestOneIntents(SentTables(), FillEvent(price, at));
    IngestOneFrame(SentTables(), FillEvent(price, at));
    assert {} + {FillEvent(price, at)} == {FillEvent(price, at)};
  }

  /* ---------- What the scenarios share ---------- */

  lemma RecoveredBy(s: System)
    ensures var after := Step(Step(s, CrashWorker(0)), StoreStep(OpRecover));
            after.db == RecoverClaimed(s.db, s.db.outbox.Keys) && after.broker == s.broker
  {
    hide RecoverClaimed;
  }

  /** Nothing makes the reconciliation raise that follows. */
  lemma NothingRaises(db: Tables, b: Broker, startingCash: Money, asOf: Time, at: Time)
    requires db.gate == Unfreeze(NEW_GATE) && db.runs == map[] && forall k :: k in db.outbox ==> k in b.orders
    ensures !Raises(db, b, startingCash, asOf, at)
  {
    assert db.gate.tickets.Keys == {StartupRow};
  }
}

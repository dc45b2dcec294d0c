/** A run in which a requested cancel strands a command. */
module StrandedCancel {
  import opened BrokerModel
  import opened ControlModels
  import opened ControlTables
  import opened Convergence
  import opened ExecutionSystem
  import opened FreezeGate
  import opened ReconciliationModel
  import opened SampleRuns
  import opened StoreRuns
  import opened SystemTheorems

  /** A worker claims a command and dies before it sends it; the recovery makes its outcome unknown; then its cancel is
      requested. */
  function Stranding(): seq<Label> {
    Claiming() + [CrashWorker(0)] + [StoreStep(OpRecover)] + [StoreStep(OpRequestCancel(IntentFor(1).id, 0))]
  }

  lemma StrandedRow(db: Tables, after: Tables)
    requires KeyFor(1) in db.intents && db.intents[KeyFor(1)].intent == IntentFor(1) && db.intents[KeyFor(1)].status == SubmissionUnknown
    requires KeyFor(1) !in db.cancels && after == RequestCancel(db, IntentFor(1).id, 0).db
    ensures after.intents.Keys == db.intents.Keys + {KeyFor(1)} && after.intents[KeyFor(1)].status == CancelRequested
    ensures after.outbox == db.outbox && after.gate == db.gate && after.runs == db.runs && after.baseline == db.baseline
  {
    hide UpdatedReservation;
  }

  lemma RecoveredCommandOf(db: Tables)
    requires KeyFor(1) in db.intents && db.intents[KeyFor(1)].intent == IntentFor(1)
    requires KeyFor(1) in db.outbox && db.outbox[KeyFor(1)].intent == IntentFor(1) && db.outbox[KeyFor(1)].status == OutboxStatus.Claimed
    ensures var after := RecoverClaimed(db, db.outbox.Keys);
            && after.outbox.Keys == db.outbox.Keys && after.outbox[KeyFor(1)].status == OutboxStatus.Unknown
            && KeyFor(1) in after.intents && after.intents[KeyFor(1)].intent == IntentFor(1)
            && after.intents[KeyFor(1)].status == SubmissionUnknown
            && after.cancels == db.cancels && after.gate == db.gate && after.runs == db.runs && after.baseline == db.baseline
  {
  }

  lemma RequestedBy(s: System, id: IntentId)
    ensures Step(s, StoreStep(OpRequestCancel(id, 0))) == s.(db := RequestCancel(s.db, id, 0).db)
  {
    hide RequestCancel;
  }

  /** The state in which the cancel has been requested. */
  lemma StrandedRun() returns (t: System)
    ensures t == Run(NewSystem(CASH), Stranding()) && t.broker == FencedBroker()
    ensures KeyFor(1) in t.db.intents && t.db.intents[KeyFor(1)].status == CancelRequested
    ensures t.db.outbox.Keys == {KeyFor(1)} && t.db.outbox[KeyFor(1)].status == OutboxStatus.Unknown
    ensures t.db.gate == Unfreeze(NEW_GATE) && t.db.runs == map[] && t.db.baseline == None
  {
    hide Step, SentTables, FencedBroker, RecoverClaimed, Claiming, Run, IntentFor, KeyFor, Unfreeze, RequestCancel, Bump;
    var s, id := AtPhase(SentTables(), SubmitClaimed(IntentFor(1))), IntentFor(1).id;
    var crashed := Step(s, CrashWorker(0));
    var recovered := Step(crashed, StoreStep(OpRecover));
    assert Stranding() == ((Claiming() + [CrashWorker(0)]) + [StoreStep(OpRecover)]) + [StoreStep(OpRequestCancel(id, 0))];
    ClaimedRun();
    SentRow();
    RecoveredBy(s);
    RecoveredCommandOf(s.db);
    Next(Claiming(), CrashWorker(0), s, crashed);
    Next(Claiming() + [CrashWorker(0)], StoreStep(OpRecover), crashed, recovered);
    RequestedBy(recovered, id);
    StrandedRow(recovered.db, RequestCancel(recovered.db, id, 0).db);
    t := recovered.(db := RequestCancel(recovered.db, id, 0).db);
    Next(Claiming() + [CrashWorker(0)] + [StoreStep(OpRecover)], StoreStep(OpRequestCancel(id, 0)), recovered, t);
  }

  lemma NothingRaisesStranded(t: System, asOf: Time, at: Time)
    requires t.broker == FencedBroker() && t.db.gate == Unfreeze(NEW_GATE) && t.db.runs == map[]
    requires KeyFor(1) in t.db.intents && t.db.intents[KeyFor(1)].status == CancelRequested
    requires t.db.outbox.Keys == {KeyFor(1)} && t.db.outbox[KeyFor(1)].status == OutboxStatus.Unknown
    ensures !Raises(t.db, t.broker, CASH, asOf, at)
  {
    assert t.db.gate.tickets.Keys == {StartupRow};
  }

  lemma StrandedStays(db: Tables)
    requires KeyFor(1) in db.intents && db.intents[KeyFor(1)].status == CancelRequested
    requires KeyFor(1) in db.outbox && db.outbox[KeyFor(1)].status == OutboxStatus.Unknown
    ensures SettledStatus(db, {}, KeyFor(1)) == OutboxStatus.Unknown
  {
  }

  /** The command that a reconciliation does not settle: the broker never saw its order, the run converges, and the
      command stays unknown. */
  lemma CancelStrands(asOf: Time, at: Time)
    ensures var t := Run(NewSystem(CASH), Stranding());
            && BrokerListed(t.broker) && KeyFor(1) !in t.broker.orders
            && var r := Reconcile(t.db, Snapshot(t.broker, asOf), at);
            && r.Ok? && r.value.1 == Report(Converged, {}, false)
            && KeyFor(1) in r.value.0.outbox && r.value.0.outbox[KeyFor(1)].status == OutboxStatus.Unknown
  {
    assert FencedBroker().orders.Keys == {} && Clean(FencedBroker(), 0);
    hide Run, Step, Stranding, Reconcile, Snapshot, Raises, Agreement, SettledStatus, FencedBroker, Clean, BlockedElsewhere;
    var t := StrandedRun();
    NothingRaisesStranded(t, asOf, at);
    StrandedStays(t.db);
    ConvergesAfterAnyRun(CASH, Stranding(), asOf, at);
  }
}

/** The law between intents, their reservations and their fills, over every run of the store. */
module IntentLaws {
  import opened Admission
  import opened Arms
  import opened ControlModels
  import opened ControlTables
  import opened Convergence
  import opened ExecutionStore
  import opened FreezeGate
  import opened Ledger
  import opened StoreFrames
  import opened StoreInvariants
  import opened StoreRuns
  import opened Sums

  /** In every reachable state an intent is covered by its own reservation, which has consumed exactly what the
      intent has filled, within the ordered and the reserved quantity; FILLED and CONSUMED mean filled in full. */
  lemma IntentReservationLaw(ops: seq<StoreOp>, k: ClientOrderKey)
    requires k in RunOps(NEW_TABLES, ops).intents
    ensures var db := RunOps(NEW_TABLES, ops);
            var row := db.intents[k];
            var rid := row.intent.id.reservationId;
            && rid in db.reservations && rid.decisionId == k.decisionId
            && row.filled <= k.quantity <= db.reservations[rid].reservation.quantityReserved
            && (db.reservations[rid].reservation.quantityConsumed == 0 ==> db.reservations[rid].consumed == row.filled)
            && (row.status == Filled ==> row.filled == k.quantity)
            && (db.reservations[rid].status == Consumed ==> row.filled == k.quantity)
  {
    hide RunOps, FilledQuantity, BooksMatch, InboxMatches, GateInv, CancelsFiled, OutboxFiled, DecisionsUnique;
    NewTablesInv();
    RunKeepsInv(NEW_TABLES, ops);
    var db := RunOps(NEW_TABLES, ops);
    assert IntentMatches(k, db.intents[k], db.applied) && ReservationMatches(k, db.intents[k], db.reservations);
  }

  /* ---------- Fills never shrink ---------- */

  predicate Monotone(db: Tables, after: Tables) { db.applied <= after.applied && KeepsIntents(db.intents, after.intents) }

  lemma StageApplies(db: Tables, capsule: DecisionCapsule, reservation: RiskReservation, intent: ExecutionIntent)
    ensures Stage(db, capsule, reservation, intent).db.applied == db.applied
  {
    hide Stage, WithPair, Enqueue, StageRefusal;
    StageCases(db, capsule, reservation, intent);
    PairTouches(db, capsule, reservation, intent);
    EnqueueTouches(WithPair(db, capsule, reservation, intent), intent);
  }

  lemma InstallApplies(db: Tables, k: ClientOrderKey, binding: ArmBinding, at: Time)
    ensures InstallArm(db, k, binding, at).db.applied == db.applied
  {
    hide ActiveArm, MaxVersion, Enqueue;
    EnqueueTouches(db, binding.intent);
  }

  lemma RefusalApplies(db: Tables, reason: FreezeReason, at: Time)
    ensures forall error: Error :: FreezeAndRefuse<nat>(db, reason, ApprovalArmSource, at, error).db.applied == db.applied
    ensures forall error: Error :: FreezeAndRefuse<nat>(db, reason, ApprovalArmSource, at, error).db.intents == db.intents
  {
    hide OpenTicket;
    var r := OpenTicket(db.gate, reason, ApprovalArmSource, Blocking, at, true);
    assert r.Err? || db.(gate := r.value).applied == db.applied;
    forall error: Error
      ensures FreezeAndRefuse<nat>(db, reason, ApprovalArmSource, at, error).db.applied == db.applied
      ensures FreezeAndRefuse<nat>(db, reason, ApprovalArmSource, at, error).db.intents == db.intents
    {
    }
  }

  lemma ArmApplies(db: Tables, id: IntentId, request: ArmRequest, at: Time)
    ensures ArmApprovedIntent(db, id, request, at).db.applied == db.applied
  {
    hide EvaluateQuoteAdmission, ArmExpiry, InstallArm;
    RefusalApplies(db, BrokerAuthorityStale, at);
    RefusalApplies(db, MarketQuoteStale, at);
    hide FreezeAndRefuse;
    forall binding
      ensures InstallArm(db, id.key, binding, at).db.applied == db.applied
    {
      InstallApplies(db, id.key, binding, at);
    }
  }

  lemma InstallKeepsIntents(db: Tables, k: ClientOrderKey, binding: ArmBinding, at: Time)
    ensures KeepsIntents(db.intents, InstallArm(db, k, binding, at).db.intents)
  {
    hide ActiveArm, MaxVersion, Enqueue, EvidenceKept;
    EnqueueKeepsEvidence(db, binding.intent);
    var queued := Enqueue(db, binding.intent);
    if queued.Ok? { EvidenceMeansIntents(db, queued.value); }
    hide KeepsIntents;
    IntentsKept(db);
  }

  lemma EvidenceMeansIntents(db: Tables, after: Tables)
    requires EvidenceKept(db, after)
    ensures KeepsIntents(db.intents, after.intents)
  {
  }

  lemma IntentsKept(db: Tables)
    ensures KeepsIntents(db.intents, db.intents)
  {
  }

  lemma ArmKeepsIntents(db: Tables, id: IntentId, request: ArmRequest, at: Time)
    ensures KeepsIntents(db.intents, ArmApprovedIntent(db, id, request, at).db.intents)
  {
    hide EvaluateQuoteAdmission, ArmExpiry, InstallArm, KeepsIntents;
    IntentsKept(db);
    RefusalApplies(db, BrokerAuthorityStale, at);
    RefusalApplies(db, MarketQuoteStale, at);
    hide FreezeAndRefuse;
    forall binding
      ensures KeepsIntents(db.intents, InstallArm(db, id.key, binding, at).db.intents)
    {
      InstallKeepsIntents(db, id.key, binding, at);
    }
  }

  lemma ClaimIsMonotone(db: Tables, lease: ExecutionLease, latest: Option<Digest>, at: Time)
    ensures Monotone(db, ClaimNext(db, lease, latest, at).db)
  {
    ClaimWrites(db, lease, latest, at);
    hide EvidenceKept, FirstClaimable, JudgeArm, LeaseCurrent, TakeCommand, ExpireCommand, WithArmStatus;
    IntentsKept(db);
    hide KeepsIntents;
    var found := FirstClaimable(db, db.outboxOrder);
    if found.Some? {
      var verdict := JudgeArm(db, found.value, latest, at);
      TakingKeepsEvidence(db, found.value, verdict, lease.fencingToken, at);
      ExpiringKeepsEvidence(db, found.value, at);
      EvidenceMeansIntents(db, TakeCommand(db, found.value, verdict, lease.fencingToken, at));
      EvidenceMeansIntents(db, ExpireCommand(db, found.value, at));
    }
  }

  /** What the other transactions leave of the log of applied events. */
  lemma MarksApply(db: Tables, op: StoreOp)
    requires op.OpMarkUnknown? || op.OpMarkDelivered? || op.OpMarkCancelUnknown? || op.OpMarkCancelDelivered?
    ensures ApplyOp(db, op).applied == db.applied
  {
    hide MarkSubmissionUnknown, MarkDelivered, MarkCancelUnknown, MarkCancelDelivered;
    match op
    case OpMarkUnknown(id, reason) => MarkUnknownWrites(db, id, reason);
    case OpMarkDelivered(id) => MarkDeliveredWrites(db, id);
    case OpMarkCancelUnknown(key, reason) => MarkCancelUnknownWrites(db, key, reason);
    case OpMarkCancelDelivered(key) => MarkCancelDeliveredWrites(db, key);
  }

  lemma RequestsApply(db: Tables, op: StoreOp)
    requires op.OpApprove? || op.OpAcquireLease? || op.OpRequestCancel? || op.OpClaimCancel?
    ensures ApplyOp(db, op).applied == db.applied
  {
    hide Approve, AcquireLease, RequestCancel, ClaimNextCancel;
    match op
    case OpApprove(id, actor, at) => ApproveWrites(db, id, actor, at);
    case OpAcquireLease(name, owner, at, ttl) => LeaseWrites(db, name, owner, at, ttl);
    case OpRequestCancel(id, actor) => CancelWrites(db, id, actor);
    case OpClaimCancel(lease, at) => ClaimCancelWrites(db, lease, at);
  }

  lemma SettlingApplies(db: Tables, op: StoreOp)
    requires op.OpRecover? || op.OpResolve? || op.OpRequeue? || op.OpSetBaseline?
    ensures ApplyOp(db, op).applied == db.applied
  {
    hide RecoverClaimed, ResolveUnknown, RequeueUnknown, SetBaseline;
    match op
    case OpRecover => RecoverWrites(db, db.outbox.Keys);
    case OpResolve(key, brokerOrderId) => ResolveWrites(db, key, brokerOrderId);
    case OpRequeue(key, asOf) => RequeueWrites(db, key, asOf);
    case OpSetBaseline(snapshot) => BaselineWrites(db, snapshot);
  }

  lemma GateOpsApply(db: Tables, op: StoreOp)
    requires op.OpReopen? || op.OpOpenTicket? || op.OpResolveTicket? || op.OpUnfreeze?
    ensures ApplyOp(db, op).applied == db.applied
  {
    hide Reopen, OpenTicket, ResolveTicket, Unfreeze;
  }

  lemma IngestApplies(db: Tables, e: BrokerEvent)
    ensures db.applied <= Ingest(db, e).db.applied
  {
    hide OpenTicket, CashEffect, UpdatedReservation, AppliedRow;
    if e.Key() !in db.intents {
      var r := OpenTicket(db.gate, BrokerOnlyOrderOrEvent, Legacy, Blocking, e.receivedAt, true);
      assert r.Err? || db.(gate := r.value, inbox := db.inbox[e.id := Orphan]).applied == db.applied;
    }
  }

  lemma StepIsMonotone(db: Tables, op: StoreOp)
    ensures Monotone(db, ApplyOp(db, op))
  {
    hide Stage, ArmApprovedIntent, ClaimNext, Ingest, RecordQuote, RecordAuthority, EvidenceKept, KeepsIntents;
    hide Approve, AcquireLease, MarkSubmissionUnknown, MarkDelivered, RequestCancel, ClaimNextCancel;
    hide MarkCancelUnknown, MarkCancelDelivered;
    hide RecoverClaimed, ResolveUnknown, RequeueUnknown, SetBaseline, Reopen, OpenTicket, ResolveTicket, Unfreeze;
    match op
    case OpClaim(lease, latest, at) => ClaimIsMonotone(db, lease, latest, at);
    case OpArm(id, request, at) =>
      ArmApplies(db, id, request, at);
      ArmKeepsIntents(db, id, request, at);
    case OpRecordQuote(quote) =>
      RecordWrites(db, quote, 0, AuthorityRow(0, 0, true, 0), Running);
      IntentsKept(db);
    case OpRecordAuthority(certificate, row, status) =>
      RecordWrites(db, QuoteSnapshot(0, 0, 1, 1, 0, 0, Realtime, Regular, NoVenue, 0, 0), certificate, row, status);
      IntentsKept(db);
    case _ =>
      OthersUninvolved(db, op);
      EvidenceMeansIntents(db, ApplyOp(db, op));
      OthersApply(db, op);
  }

  lemma OthersApply(db: Tables, op: StoreOp)
    requires !op.OpArm? && !op.OpClaim? && !op.OpRecordQuote? && !op.OpRecordAuthority?
    ensures db.applied <= ApplyOp(db, op).applied
  {
    match op
    case OpStage(capsule, reservation, intent) => StageApplies(db, capsule, reservation, intent);
    case OpIngest(e) => IngestApplies(db, e);
    case OpRecover => { hide ApplyOp; SettlingApplies(db, op); }
    case OpResolve(_, _) => { hide ApplyOp; SettlingApplies(db, op); }
    case OpRequeue(_, _) => { hide ApplyOp; SettlingApplies(db, op); }
    case OpSetBaseline(_) => { hide ApplyOp; SettlingApplies(db, op); }
    case OpReopen(_) => { hide ApplyOp; GateOpsApply(db, op); }
    case OpOpenTicket(_, _, _, _) => { hide ApplyOp; GateOpsApply(db, op); }
    case OpResolveTicket(_, _) => { hide ApplyOp; GateOpsApply(db, op); }
    case OpUnfreeze => { hide ApplyOp; GateOpsApply(db, op); }
    case OpApprove(_, _, _) => { hide ApplyOp; RequestsApply(db, op); }
    case OpAcquireLease(_, _, _, _) => { hide ApplyOp; RequestsApply(db, op); }
    case OpRequestCancel(_, _) => { hide ApplyOp; RequestsApply(db, op); }
    case OpClaimCancel(_, _) => { hide ApplyOp; RequestsApply(db, op); }
    case _ => { hide ApplyOp; MarksApply(db, op); }
  }

  /** More events fill at least as much. */
  lemma {:induction false} FilledGrows(events: set<BrokerEvent>, more: set<BrokerEvent>, k: ClientOrderKey)
    requires events <= more
    ensures FilledQuantity(events, k) <= FilledQuantity(more, k)
    decreases |more - events|
  {
    if events != more {
      assert !(more <= events);
      var e :| e in more && e !in events;
      FilledInsert(events, e, k);
      assert more - (events + {e}) < more - events;
      FilledGrows(events + {e}, more, k);
      hide FilledQuantity;
    }
  }

  lemma {:induction false} RunIsMonotone(db: Tables, ops: seq<StoreOp>)
    ensures Monotone(db, RunOps(db, ops))
  {
    hide ApplyOp;
    if ops == [] {
      IntentsKept(db);
    } else {
      RunIsMonotone(db, ops[..|ops| - 1]);
      StepIsMonotone(RunOps(db, ops[..|ops| - 1]), ops[|ops| - 1]);
    }
  }

  /** The filled quantity of an intent never decreases, whatever is done to the store. */
  lemma FillsNeverShrink(db: Tables, ops: seq<StoreOp>, k: ClientOrderKey)
    requires StoreInv(db) && k in db.intents
    ensures k in RunOps(db, ops).intents && db.intents[k].filled <= RunOps(db, ops).intents[k].filled <= k.quantity
  {
    hide RunOps, FilledQuantity, BooksMatch, InboxMatches, GateInv, CancelsFiled, OutboxFiled, DecisionsUnique;
    hide ReservationsMatch;
    RunIsMonotone(db, ops);
    RunKeepsInv(db, ops);
    var after := RunOps(db, ops);
    FilledGrows(db.applied, after.applied, k);
    assert IntentMatches(k, db.intents[k], db.applied) && IntentMatches(k, after.intents[k], after.applied);
  }
}

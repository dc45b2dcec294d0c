/** FILLED is not absorbing: which transactions take an intent out of it, exactly, over every run of the store. */
module FilledLaws {
  import opened Admission
  import opened Arms
  import opened Capacity
  import opened ControlModels
  import opened ControlTables
  import opened ExecutionStore
  import opened FreezeGate
  import opened IntentLaws
  import opened StoreFrames
  import opened StoreInvariants
  import opened StoreRuns

  predicate IsFilled(intents: map<ClientOrderKey, IntentRow>, k: ClientOrderKey) {
    k in intents && intents[k].status == ExecutionStatus.Filled
  }

  /** The claim of this command goes through, or finds its reservation expired. */
  predicate ClaimReaches(db: Tables, lease: ExecutionLease, latest: Option<Digest>, at: Time, k: ClientOrderKey) {
    && !db.gate.frozen && LeaseCurrent(db, lease, at) && FirstClaimable(db, db.outboxOrder) == Some(k)
    && (JudgeArm(db, k, latest, at).ArmNotNeeded? || JudgeArm(db, k, latest, at).ArmAdmits?)
  }

  /** The five transactions that relabel an intent without looking at its status. */
  predicate LeavesFilled(db: Tables, op: StoreOp, k: ClientOrderKey) {
    match op
    case OpRecover => NeedsRecovery(db, k) && Joined(db, k)
    case OpMarkUnknown(id, _) => id.key == k && HasCommand(db, id) && HasIntent(db, id)
    case OpMarkCancelUnknown(key, _) => key in db.cancels && db.cancels[key].intentId.key == k && HasIntent(db, db.cancels[key].intentId)
    case OpRequeue(key, asOf) => key == k && Unresolved(db, k) && !TooOld(db, k, asOf) && Joined(db, k)
    case OpClaim(lease, latest, at) => ClaimReaches(db, lease, latest, at, k)
    case _ => false
  }

  /* ---------- The transactions, one by one ---------- */

  lemma PairKeepsFilled(db: Tables, capsule: DecisionCapsule, reservation: RiskReservation, intent: ExecutionIntent, k: ClientOrderKey)
    requires IsFilled(db.intents, k)
    ensures IsFilled(WithPair(db, capsule, reservation, intent).intents, k)
  {
    if IntentSlotFree(db, intent.id) { SlotIsFree(db, intent.id); }
    hide IntentSlotFree, DecisionTaken;
  }

  lemma EnqueueKeepsFilled(db: Tables, intent: ExecutionIntent, k: ClientOrderKey)
    requires IsFilled(db.intents, k)
    ensures var r := Enqueue(db, intent); r.Ok? ==> IsFilled(r.value.intents, k)
  {
    hide Bump;
  }

  lemma StageKeepsFilled(db: Tables, capsule: DecisionCapsule, reservation: RiskReservation, intent: ExecutionIntent, k: ClientOrderKey)
    requires IsFilled(db.intents, k)
    ensures IsFilled(Stage(db, capsule, reservation, intent).db.intents, k)
  {
    hide Stage, WithPair, Enqueue, StageRefusal, IsFilled;
    StageCases(db, capsule, reservation, intent);
    PairKeepsFilled(db, capsule, reservation, intent, k);
    EnqueueKeepsFilled(WithPair(db, capsule, reservation, intent), intent, k);
  }

  lemma InstallKeepsFilled(db: Tables, key: ClientOrderKey, binding: ArmBinding, at: Time, k: ClientOrderKey)
    requires IsFilled(db.intents, k)
    ensures IsFilled(InstallArm(db, key, binding, at).db.intents, k)
  {
    hide ActiveArm, MaxVersion, Enqueue, IsFilled;
    EnqueueKeepsFilled(db, binding.intent, k);
  }

  lemma ArmKeepsFilled(db: Tables, id: IntentId, request: ArmRequest, at: Time, k: ClientOrderKey)
    requires IsFilled(db.intents, k)
    ensures IsFilled(ArmApprovedIntent(db, id, request, at).db.intents, k)
  {
    hide EvaluateQuoteAdmission, ArmExpiry, InstallArm, IsFilled;
    RefusalApplies(db, BrokerAuthorityStale, at);
    RefusalApplies(db, MarketQuoteStale, at);
    hide FreezeAndRefuse;
    forall binding
      ensures IsFilled(InstallArm(db, id.key, binding, at).db.intents, k)
    {
      InstallKeepsFilled(db, id.key, binding, at, k);
    }
  }

  lemma ApproveKeepsFilled(db: Tables, id: IntentId, actor: Name, at: Time, k: ClientOrderKey)
    requires IsFilled(db.intents, k)
    ensures IsFilled(Approve(db, id, actor, at).db.intents, k)
  {
    hide Bump, AnyBlocking;
  }

  lemma CancelKeepsFilled(db: Tables, id: IntentId, actor: Name, k: ClientOrderKey)
    requires IsFilled(db.intents, k)
    ensures IsFilled(RequestCancel(db, id, actor).db.intents, k)
  {
    hide Bump, UpdatedReservation;
  }

  lemma ResolveKeepsFilled(db: Tables, key: ClientOrderKey, brokerOrderId: nat, k: ClientOrderKey)
    requires IsFilled(db.intents, k)
    ensures IsFilled(ResolveUnknown(db, key, brokerOrderId).intents, k)
  {
    hide Bump;
  }

  lemma ClaimLeavesExactly(db: Tables, lease: ExecutionLease, latest: Option<Digest>, at: Time, k: ClientOrderKey)
    requires IsFilled(db.intents, k)
    ensures !IsFilled(ClaimNext(db, lease, latest, at).db.intents, k) <==> ClaimReaches(db, lease, latest, at, k)
  {
    hide FirstClaimable, JudgeArm, LeaseCurrent, TakeCommand, ExpireCommand, WithArmStatus, IsFilled;
    var found := FirstClaimable(db, db.outboxOrder);
    if !db.gate.frozen && LeaseCurrent(db, lease, at) && found.Some? {
      var verdict := JudgeArm(db, found.value, latest, at);
      if verdict.ArmRefuses? {
        var arms := db.arms[found.value := WithArmStatus(ArmsOf(db, found.value), verdict.index, ArmExpiredStatus)];
        assert db.(arms := arms).intents == db.intents;
      } else {
        TakingRelabels(db, found.value, verdict, lease.fencingToken, at, k);
      }
    }
  }

  lemma TakingRelabels(db: Tables, key: ClientOrderKey, verdict: ArmVerdict, token: nat, at: Time, k: ClientOrderKey)
    requires IsFilled(db.intents, k) && Claimable(db, key) && (verdict.ArmAdmits? ==> verdict.index < |ArmsOf(db, key)|)
    ensures IsFilled(TakeCommand(db, key, verdict, token, at).intents, k) <==> key != k
    ensures IsFilled(ExpireCommand(db, key, at).intents, k) <==> key != k
  {
    hide WithArmStatus;
  }

  lemma MarksLeaveExactly(db: Tables, op: StoreOp, k: ClientOrderKey)
    requires IsFilled(db.intents, k) && (op.OpMarkUnknown? || op.OpMarkCancelUnknown?)
    ensures !IsFilled(ApplyOp(db, op).intents, k) <==> LeavesFilled(db, op, k)
  {
    match op
    case OpMarkUnknown(id, reason) => MarkingRelabels(db, id, reason, k);
    case OpMarkCancelUnknown(key, reason) => CancelMarkingRelabels(db, key, reason, k);
  }

  lemma MarkingRelabels(db: Tables, id: IntentId, reason: Name, k: ClientOrderKey)
    requires IsFilled(db.intents, k)
    ensures !IsFilled(MarkSubmissionUnknown(db, id, reason).db.intents, k) <==> id.key == k && HasCommand(db, id) && HasIntent(db, id)
  {
  }

  lemma CancelMarkingRelabels(db: Tables, key: ClientOrderKey, reason: Name, k: ClientOrderKey)
    requires IsFilled(db.intents, k)
    ensures !IsFilled(MarkCancelUnknown(db, key, reason).db.intents, k)
            <==> key in db.cancels && db.cancels[key].intentId.key == k && HasIntent(db, db.cancels[key].intentId)
  {
  }

  lemma SettlingLeavesExactly(db: Tables, op: StoreOp, k: ClientOrderKey)
    requires IsFilled(db.intents, k) && (op.OpRecover? || op.OpRequeue?)
    ensures !IsFilled(ApplyOp(db, op).intents, k) <==> LeavesFilled(db, op, k)
  {
    match op
    case OpRecover => RecoveryRelabels(db, k);
    case OpRequeue(key, asOf) => RequeueRelabelsOne(db, key, asOf, k);
  }

  lemma RecoveryRelabels(db: Tables, k: ClientOrderKey)
    requires IsFilled(db.intents, k)
    ensures !IsFilled(RecoverClaimed(db, db.outbox.Keys).intents, k) <==> NeedsRecovery(db, k) && Joined(db, k)
  {
  }

  lemma RequeueRelabelsOne(db: Tables, key: ClientOrderKey, asOf: Time, k: ClientOrderKey)
    requires IsFilled(db.intents, k)
    ensures !IsFilled(RequeueUnknown(db, key, asOf).db.intents, k)
            <==> key == k && Unresolved(db, k) && !TooOld(db, k, asOf) && Joined(db, k)
  {
  }

  /** The transactions that write no intent at all. */
  lemma RecordsWriteNoIntent(db: Tables, op: StoreOp)
    requires op.OpRecordQuote? || op.OpRecordAuthority? || op.OpAcquireLease? || op.OpSetBaseline?
    ensures ApplyOp(db, op).intents == db.intents
  {
    hide RecordQuote, RecordAuthority, AcquireLease, SetBaseline;
    match op
    case OpRecordQuote(quote) => RecordWrites(db, quote, 0, AuthorityRow(0, 0, true, 0), Running);
    case OpRecordAuthority(certificate, row, status) =>
      RecordWrites(db, QuoteSnapshot(0, 0, 1, 1, 0, 0, Realtime, Regular, NoVenue, 0, 0), certificate, row, status);
    case OpAcquireLease(name, owner, at, ttl) => LeaseWrites(db, name, owner, at, ttl);
    case OpSetBaseline(snapshot) => BaselineWrites(db, snapshot);
  }

  lemma DeliveriesWriteNoIntent(db: Tables, op: StoreOp)
    requires op.OpMarkDelivered? || op.OpClaimCancel? || op.OpMarkCancelDelivered?
    ensures ApplyOp(db, op).intents == db.intents
  {
    hide MarkDelivered, ClaimNextCancel, MarkCancelDelivered;
    match op
    case OpMarkDelivered(id) => MarkDeliveredWrites(db, id);
    case OpClaimCancel(lease, at) => ClaimCancelWrites(db, lease, at);
    case OpMarkCancelDelivered(key) => MarkCancelDeliveredWrites(db, key);
  }

  lemma TicketsWriteNoIntent(db: Tables, op: StoreOp)
    requires op.OpReopen? || op.OpOpenTicket? || op.OpResolveTicket? || op.OpUnfreeze?
    ensures ApplyOp(db, op).intents == db.intents
  {
    hide Reopen, OpenTicket, ResolveTicket, Unfreeze;
  }

  /** The transactions that look at the status before they write it. */
  lemma CarefulOpsKeepFilled(db: Tables, op: StoreOp, k: ClientOrderKey)
    requires StoreInv(db) && IsFilled(db.intents, k)
    requires op.OpStage? || op.OpApprove? || op.OpArm? || op.OpRequestCancel? || op.OpResolve? || op.OpIngest?
    ensures IsFilled(ApplyOp(db, op).intents, k)
  {
    hide StoreInv, IsFilled, Ingest, Stage, ArmApprovedIntent, Approve, RequestCancel, ResolveUnknown;
    match op
    case OpStage(capsule, reservation, intent) => StageKeepsFilled(db, capsule, reservation, intent, k);
    case OpApprove(id, actor, at) => ApproveKeepsFilled(db, id, actor, at, k);
    case OpArm(id, request, at) => ArmKeepsFilled(db, id, request, at, k);
    case OpRequestCancel(id, actor) => CancelKeepsFilled(db, id, actor, k);
    case OpResolve(key, brokerOrderId) => ResolveKeepsFilled(db, key, brokerOrderId, k);
    case OpIngest(event) => EventKeepsFilled(db, event, k);
  }

  predicate Relabels(op: StoreOp) {
    op.OpRecover? || op.OpMarkUnknown? || op.OpMarkCancelUnknown? || op.OpRequeue? || op.OpClaim?
  }

  lemma OnlyFiveLeave(db: Tables, op: StoreOp, k: ClientOrderKey)
    requires !Relabels(op)
    ensures !LeavesFilled(db, op, k)
  {
  }

  lemma ClaimOpLeavesExactly(db: Tables, op: StoreOp, k: ClientOrderKey)
    requires IsFilled(db.intents, k) && op.OpClaim?
    ensures !IsFilled(ApplyOp(db, op).intents, k) <==> LeavesFilled(db, op, k)
  {
    hide ClaimReaches, IsFilled, ClaimNext;
    ClaimLeavesExactly(db, op.lease, op.latest, op.at, k);
  }

  /* ---------- The theorems ---------- */

  /** A transaction takes an intent out of FILLED exactly when it is one of the five, at that intent. */
  lemma LeavesFilledExactly(db: Tables, op: StoreOp, k: ClientOrderKey)
    requires StoreInv(db) && IsFilled(db.intents, k)
    ensures k in ApplyOp(db, op).intents
    ensures !IsFilled(ApplyOp(db, op).intents, k) <==> LeavesFilled(db, op, k)
  {
    StaysStored(db, op, k);
    hide StoreInv, IsFilled, ApplyOp, LeavesFilled;
    if !Relabels(op) { OnlyFiveLeave(db, op, k); }
    if op.OpClaim? {
      ClaimOpLeavesExactly(db, op, k);
    } else if op.OpMarkUnknown? || op.OpMarkCancelUnknown? {
      MarksLeaveExactly(db, op, k);
    } else if op.OpRecover? || op.OpRequeue? {
      SettlingLeavesExactly(db, op, k);
    } else if op.OpStage? || op.OpApprove? || op.OpArm? || op.OpRequestCancel? || op.OpResolve? || op.OpIngest? {
      CarefulOpsKeepFilled(db, op, k);
    } else if op.OpRecordQuote? || op.OpRecordAuthority? || op.OpAcquireLease? || op.OpSetBaseline? {
      RecordsWriteNoIntent(db, op);
    } else if op.OpMarkDelivered? || op.OpClaimCancel? || op.OpMarkCancelDelivered? {
      DeliveriesWriteNoIntent(db, op);
    } else {
      TicketsWriteNoIntent(db, op);
    }
  }

  lemma StaysStored(db: Tables, op: StoreOp, k: ClientOrderKey)
    requires k in db.intents
    ensures k in ApplyOp(db, op).intents
  {
    hide ApplyOp;
    StepIsMonotone(db, op);
  }

  lemma EventKeepsFilled(db: Tables, e: BrokerEvent, k: ClientOrderKey)
    requires StoreInv(db) && IsFilled(db.intents, k)
    ensures IsFilled(Ingest(db, e).db.intents, k)
  {
    FilledSurvivesEvents(db, e, k);
    hide StoreInv, Ingest;
  }

  lemma StepLeavesExactly(db: Tables, ops: seq<StoreOp>, k: ClientOrderKey, n: nat)
    requires StoreInv(db) && n < |ops| && IsFilled(RunOps(db, ops[..n]).intents, k)
    ensures !IsFilled(RunOps(db, ops[..n + 1]).intents, k) <==> LeavesFilled(RunOps(db, ops[..n]), ops[n], k)
  {
    hide StoreInv, ApplyOp, LeavesFilled, IsFilled;
    RunKeepsInv(db, ops[..n]);
    assert ops[..n + 1][..n] == ops[..n];
    LeavesFilledExactly(RunOps(db, ops[..n]), ops[n], k);
  }

  lemma {:induction false} FilledUpTo(db: Tables, ops: seq<StoreOp>, k: ClientOrderKey, n: nat)
    requires StoreInv(db) && IsFilled(db.intents, k) && n <= |ops|
    requires forall i :: 0 <= i < n ==> !LeavesFilled(RunOps(db, ops[..i]), ops[i], k)
    ensures IsFilled(RunOps(db, ops[..n]).intents, k)
  {
    hide StoreInv, ApplyOp, LeavesFilled, IsFilled;
    if n == 0 {
      assert ops[..0] == [];
    } else {
      FilledUpTo(db, ops, k, n - 1);
      StepLeavesExactly(db, ops, k, n - 1);
    }
  }

  /** An intent is FILLED all the way through a run exactly when none of its steps is one of the five at that intent. */
  lemma FilledExactly(db: Tables, ops: seq<StoreOp>, k: ClientOrderKey)
    requires StoreInv(db) && IsFilled(db.intents, k)
    ensures (forall n :: 0 <= n <= |ops| ==> IsFilled(RunOps(db, ops[..n]).intents, k))
            <==> (forall n :: 0 <= n < |ops| ==> !LeavesFilled(RunOps(db, ops[..n]), ops[n], k))
  {
    hide StoreInv, RunOps, LeavesFilled, IsFilled;
    if forall n :: 0 <= n <= |ops| ==> IsFilled(RunOps(db, ops[..n]).intents, k) {
      forall n | 0 <= n < |ops|
        ensures !LeavesFilled(RunOps(db, ops[..n]), ops[n], k)
      {
        assert IsFilled(RunOps(db, ops[..n + 1]).intents, k);
        StepLeavesExactly(db, ops, k, n);
      }
    } else if forall n :: 0 <= n < |ops| ==> !LeavesFilled(RunOps(db, ops[..n]), ops[n], k) {
      forall n | 0 <= n <= |ops|
        ensures IsFilled(RunOps(db, ops[..n]).intents, k)
      {
        FilledUpTo(db, ops, k, n);
      }
    }
  }
}

/** Reserved notional against the account's capacity. */
module Capacity {
  import opened ControlModels
  import opened ControlTables
  import opened Admission
  import opened FreezeGate
  import opened Ledger
  import opened StoreInvariants
  import opened StoreRuns
  import opened Sums

  /** No account holds more than its capacity. */
  ghost predicate WithinCapacity(rows: map<ReservationId, ReservationRow>, capacity: Account -> nat) {
    forall account :: HeldNotional(rows, account) <= capacity(account)
  }

  /** The notional one row holds. */
  function Held(row: ReservationRow): nat { if Holding(row.status) then row.reservation.notional else 0 }

  lemma HeldOneMore(rows: map<ReservationId, ReservationRow>, id: ReservationId, row: ReservationRow, account: Account)
    requires id !in rows
    ensures HeldNotional(rows[id := row], account) ==
            HeldNotional(rows, account) + if row.reservation.accountId == account then Held(row) else 0
  {
    var after := rows[id := row];
    assert after.Keys == rows.Keys + {id};
    SumInsert(rows.Keys, HeldWeight(after, account), id);
    SumCongruence(rows.Keys, HeldWeight(after, account), HeldWeight(rows, account));
  }

  /** Rewriting one row moves the total by what that row held and holds. */
  lemma HeldShift(rows: map<ReservationId, ReservationRow>, id: ReservationId, row: ReservationRow, account: Account)
    requires id in rows && row.reservation == rows[id].reservation
    ensures HeldNotional(rows[id := row], account) ==
            HeldNotional(rows, account) + if row.reservation.accountId == account then Held(row) - Held(rows[id]) else 0
  {
    var after := rows[id := row];
    assert after.Keys == rows.Keys;
    SumShift(rows.Keys, HeldWeight(rows, account), HeldWeight(after, account), id);
  }

  /** Staging checks the capacity before it writes, also when it is retried. */
  lemma StageWithinCapacity(db: Tables, capsule: DecisionCapsule, reservation: RiskReservation, intent: ExecutionIntent, capacity: Account -> nat)
    requires WithinCapacity(db.reservations, capacity) && reservation.capacity == capacity(reservation.accountId)
    ensures WithinCapacity(Stage(db, capsule, reservation, intent).db.reservations, capacity)
  {
    hide HeldNotional;
    var after := Stage(db, capsule, reservation, intent).db;
    StageReservations(db, capsule, reservation, intent);
    if after.reservations != db.reservations {
      assert db.reservations - {reservation.id} == db.reservations;
      forall account
        ensures HeldNotional(after.reservations, account) <= capacity(account)
      {
        HeldOneMore(db.reservations, reservation.id, after.reservations[reservation.id], account);
      }
    }
  }

  lemma EnqueueReservations(db: Tables, intent: ExecutionIntent)
    ensures var r := Enqueue(db, intent); r.Ok? ==> r.value.reservations == db.reservations
  {
  }

  lemma StageReservations(db: Tables, capsule: DecisionCapsule, reservation: RiskReservation, intent: ExecutionIntent)
    ensures var after := Stage(db, capsule, reservation, intent).db;
            after.reservations != db.reservations ==>
              && reservation.id !in db.reservations
              && after.reservations == db.reservations[reservation.id := ReservationRow(reservation, reservation.status, reservation.quantityConsumed)]
              && HeldNotional(db.reservations - {reservation.id}, reservation.accountId) + reservation.notional <= reservation.capacity
  {
    hide HeldNotional, Enqueue, IntentSlotFree;
    EnqueueReservations(WithPair(db, capsule, reservation, intent), intent);
  }

  /* ---------- Events ---------- */

  /** The reservation an event rewrites, if it is applied. */
  predicate Rewrites(db: Tables, e: BrokerEvent) {
    && e.id !in db.inbox && e.Key() in db.intents && (e.IsFill() ==> e.id.fillPrice.Some?)
    && db.intents[e.Key()].intent.id.reservationId in db.reservations
  }

  /** The event leaves the order open although its reservation had been released or had expired. */
  predicate Reactivates(db: Tables, e: BrokerEvent) {
    Rewrites(db, e)
    && var row := db.intents[e.Key()];
    var status := StatusFor(e, row.filled + e.Quantity(), e.Key().quantity, row.status);
    && db.reservations[row.intent.id.reservationId].status in {Released, ReservationExpiredStatus}
    && row.filled + e.Quantity() < e.Key().quantity
    && status != Rejected && status != Cancelled && status != ExecutionStatus.Expired
  }

  lemma RewrittenReservation(db: Tables, e: BrokerEvent)
    requires Rewrites(db, e)
    ensures var rid := db.intents[e.Key()].intent.id.reservationId;
            var row := AppliedRow(db.intents[e.Key()], e);
            Ingest(db, e).db.reservations == db.reservations[rid := db.reservations[rid].(
              status := ReservationStatusFor(row.filled, e.Key().quantity, row.status), consumed := row.filled)]
  {
    hide CashEffect, AppliedRow, OpenTicket, ReservationStatusFor;
  }

  lemma ReservationsKept(db: Tables, e: BrokerEvent)
    requires !Rewrites(db, e)
    ensures Ingest(db, e).db.reservations == db.reservations
  {
    hide CashEffect, AppliedRow, OpenTicket, ReservationStatusFor;
    if e.Key() !in db.intents {
      var r := OpenTicket(db.gate, BrokerOnlyOrderOrEvent, Legacy, Blocking, e.receivedAt, true);
      assert r.Err? || db.(gate := r.value, inbox := db.inbox[e.id := Orphan]).reservations == db.reservations;
    }
  }

  /** An event raises the notional an account holds exactly when it reactivates one of its reservations. */
  lemma EventRaisesExactly(db: Tables, e: BrokerEvent, account: Account)
    requires StoreInv(db)
    ensures HeldNotional(Ingest(db, e).db.reservations, account) > HeldNotional(db.reservations, account)
            <==> Reactivates(db, e)
                 && var row := db.reservations[db.intents[e.Key()].intent.id.reservationId].reservation;
                 row.accountId == account && row.notional > 0
  {
    hide HeldNotional, Ingest, FilledQuantity, BooksMatch, InboxMatches, GateInv, CancelsFiled, OutboxFiled;
    hide DecisionsUnique;
    if !Rewrites(db, e) {
      ReservationsKept(db, e);
    } else {
      RewrittenReservation(db, e);
      var k := e.Key();
      var rid := db.intents[k].intent.id.reservationId;
      assert IntentMatches(k, db.intents[k], db.applied) && ReservationMatches(k, db.intents[k], db.reservations);
      HeldShift(db.reservations, rid, Ingest(db, e).db.reservations[rid], account);
    }
  }

  /** The reservation that an event writes back, if it does, still fits: the check of staging, made at the event. */
  ghost predicate StillFits(db: Tables, e: BrokerEvent, capacity: Account -> nat) {
    Reactivates(db, e) ==>
      var reservation := db.reservations[db.intents[e.Key()].intent.id.reservationId].reservation;
      HeldNotional(db.reservations, reservation.accountId) + reservation.notional <= capacity(reservation.accountId)
  }

  /** What the event adds to an account is the notional of the reservation that it reactivates. */
  lemma EventAdds(db: Tables, e: BrokerEvent, account: Account)
    requires Reactivates(db, e)
    ensures var reservation := db.reservations[db.intents[e.Key()].intent.id.reservationId].reservation;
            HeldNotional(Ingest(db, e).db.reservations, account)
            == HeldNotional(db.reservations, account) + if reservation.accountId == account then reservation.notional else 0
  {
    hide HeldNotional, Ingest, AppliedRow, ReservationStatusFor, Holding;
    ReactivationHolds(db, e);
    RewrittenReservation(db, e);
    var rid := db.intents[e.Key()].intent.id.reservationId;
    HeldShift(db.reservations, rid, Ingest(db, e).db.reservations[rid], account);
  }

  /** A reactivated reservation held nothing before and holds again. */
  lemma ReactivationHolds(db: Tables, e: BrokerEvent)
    requires Reactivates(db, e)
    ensures var row := AppliedRow(db.intents[e.Key()], e);
            && Holding(ReservationStatusFor(row.filled, e.Key().quantity, row.status))
            && !Holding(db.reservations[db.intents[e.Key()].intent.id.reservationId].status)
  {
    hide StatusFor;
  }

  /** An event keeps every account within its capacity exactly when the reservation that it writes back still fits. */
  lemma EventFitsExactly(db: Tables, e: BrokerEvent, capacity: Account -> nat)
    requires StoreInv(db) && WithinCapacity(db.reservations, capacity)
    ensures WithinCapacity(Ingest(db, e).db.reservations, capacity) <==> StillFits(db, e, capacity)
  {
    hide HeldNotional, Ingest, StoreInv, Reactivates;
    var after := Ingest(db, e).db.reservations;
    if Reactivates(db, e) {
      var reservation := ReactivatedOf(db, e);
      EventAdds(db, e, reservation.accountId);
      forall account | account != reservation.accountId
        ensures HeldNotional(after, account) <= capacity(account)
      {
        EventAdds(db, e, account);
      }
    } else {
      forall account
        ensures HeldNotional(after, account) <= capacity(account)
      {
        EventRaisesExactly(db, e, account);
      }
    }
  }

  lemma ReactivatedOf(db: Tables, e: BrokerEvent) returns (reservation: RiskReservation)
    requires Reactivates(db, e)
    ensures e.Key() in db.intents && db.intents[e.Key()].intent.id.reservationId in db.reservations
    ensures reservation == db.reservations[db.intents[e.Key()].intent.id.reservationId].reservation
  {
    reservation := db.reservations[db.intents[e.Key()].intent.id.reservationId].reservation;
  }

  /* ---------- Runs ---------- */

  /** Decisions are staged with one capacity per account. */
  predicate StagedWith(op: StoreOp, capacity: Account -> nat) {
    op.OpStage? ==> op.reservation.capacity == capacity(op.reservation.accountId)
  }

  ghost predicate StepFits(db: Tables, op: StoreOp, capacity: Account -> nat) { op.OpIngest? ==> StillFits(db, op.event, capacity) }

  /** Released rows hold nothing, so rewriting a row that way lowers the total. */
  lemma ReleasingLowers(rows: map<ReservationId, ReservationRow>, id: ReservationId, row: ReservationRow, capacity: Account -> nat)
    requires WithinCapacity(rows, capacity) && id in rows && row.reservation == rows[id].reservation && !Holding(row.status)
    ensures WithinCapacity(rows[id := row], capacity)
  {
    hide HeldNotional;
    forall account
      ensures HeldNotional(rows[id := row], account) <= capacity(account)
    {
      HeldShift(rows, id, row, account);
    }
  }

  lemma TakingReservations(db: Tables, k: ClientOrderKey, verdict: ArmVerdict, token: nat, at: Time)
    requires Claimable(db, k) && (verdict.ArmAdmits? ==> verdict.index < |ArmsOf(db, k)|)
    ensures TakeCommand(db, k, verdict, token, at).reservations == db.reservations
    ensures var rid := db.intents[k].intent.id.reservationId;
            ExpireCommand(db, k, at).reservations == db.reservations[rid := db.reservations[rid].(status := ReservationExpiredStatus)]
  {
  }

  lemma ClaimWithinCapacity(db: Tables, lease: ExecutionLease, latest: Option<Digest>, at: Time, capacity: Account -> nat)
    requires WithinCapacity(db.reservations, capacity)
    ensures WithinCapacity(ClaimNext(db, lease, latest, at).db.reservations, capacity)
  {
    hide WithinCapacity, FirstClaimable, JudgeArm, LeaseCurrent, TakeCommand, ExpireCommand;
    var found := FirstClaimable(db, db.outboxOrder);
    if found.Some? {
      TakingReservations(db, found.value, JudgeArm(db, found.value, latest, at), lease.fencingToken, at);
      var rid := db.intents[found.value].intent.id.reservationId;
      ReleasingLowers(db.reservations, rid, db.reservations[rid].(status := ReservationExpiredStatus), capacity);
    }
  }

  lemma CancelWithinCapacity(db: Tables, id: IntentId, actor: Name, capacity: Account -> nat)
    requires WithinCapacity(db.reservations, capacity)
    ensures WithinCapacity(RequestCancel(db, id, actor).db.reservations, capacity)
  {
    hide WithinCapacity;
    if HasIntent(db, id) && id.reservationId in db.reservations {
      var rid := id.reservationId;
      ReleasingLowers(db.reservations, rid, db.reservations[rid].(status := Released, consumed := db.intents[id.key].filled), capacity);
    }
  }

  lemma ArmKeepsReservations(db: Tables, id: IntentId, request: ArmRequest, at: Time)
    ensures ArmApprovedIntent(db, id, request, at).db.reservations == db.reservations
  {
    hide OpenTicket, ArmExpiry, Enqueue, Eligible, EvaluateQuoteAdmission;
    if id.key in db.intents { EnqueueReservations(db, db.intents[id.key].intent); }
    InstallKeepsReservations(db, id.key);
    hide InstallArm;
    TicketKeepsReservations(db, BrokerAuthorityStale, at);
    TicketKeepsReservations(db, MarketQuoteStale, at);
  }

  lemma InstallKeepsReservations(db: Tables, k: ClientOrderKey)
    ensures forall binding, at :: InstallArm(db, k, binding, at).db.reservations == db.reservations
  {
    hide Enqueue, ActiveArm, MaxVersion;
    forall binding, at
      ensures InstallArm(db, k, binding, at).db.reservations == db.reservations
    {
      EnqueueReservations(db, binding.intent);
    }
  }

  lemma TicketKeepsReservations(db: Tables, reason: FreezeReason, at: Time)
    ensures forall error: Error :: FreezeAndRefuse<nat>(db, reason, ApprovalArmSource, at, error).db.reservations == db.reservations
  {
    hide OpenTicket;
    var r := OpenTicket(db.gate, reason, ApprovalArmSource, Blocking, at, true);
    assert r.Err? || db.(gate := r.value).reservations == db.reservations;
    forall error: Error
      ensures FreezeAndRefuse<nat>(db, reason, ApprovalArmSource, at, error).db.reservations == db.reservations
    {
    }
  }

  lemma GateOpsKeepReservations(db: Tables, op: StoreOp)
    requires op.OpReopen? || op.OpOpenTicket? || op.OpResolveTicket? || op.OpUnfreeze?
    ensures ApplyOp(db, op).reservations == db.reservations
  {
    hide OpenTicket, Reopen, Unfreeze, ResolveTicket;
  }

  lemma OthersKeepReservations(db: Tables, op: StoreOp)
    requires !op.OpStage? && !op.OpClaim? && !op.OpRequestCancel? && !op.OpIngest?
    ensures ApplyOp(db, op).reservations == db.reservations
  {
    match op
    case OpArm(id, request, at) => ArmKeepsReservations(db, id, request, at);
    case OpReopen(_) => GateOpsKeepReservations(db, op);
    case OpOpenTicket(_, _, _, _) => GateOpsKeepReservations(db, op);
    case OpResolveTicket(_, _) => GateOpsKeepReservations(db, op);
    case OpUnfreeze => GateOpsKeepReservations(db, op);
    case OpApprove(id, actor, at) => { hide ApplyOp; ApproveKeepsReservations(db, op); }
    case OpMarkUnknown(_, _) => { hide ApplyOp; MarksKeepReservations(db, op); }
    case OpMarkDelivered(_) => { hide ApplyOp; MarksKeepReservations(db, op); }
    case OpMarkCancelUnknown(_, _) => { hide ApplyOp; MarksKeepReservations(db, op); }
    case OpMarkCancelDelivered(_) => { hide ApplyOp; MarksKeepReservations(db, op); }
    case OpClaimCancel(_, _) => { hide ApplyOp; MarksKeepReservations(db, op); }
    case OpResolve(_, _) => { hide ApplyOp; SettlingKeepsReservations(db, op); }
    case OpRequeue(_, _) => { hide ApplyOp; SettlingKeepsReservations(db, op); }
    case OpRecover => { hide ApplyOp; SettlingKeepsReservations(db, op); }
    case _ => { hide ApplyOp; RecordsKeepReservations(db, op); }
  }

  lemma ApproveKeepsReservations(db: Tables, op: StoreOp)
    requires op.OpApprove?
    ensures ApplyOp(db, op).reservations == db.reservations
  {
  }

  lemma MarksKeepReservations(db: Tables, op: StoreOp)
    requires op.OpMarkUnknown? || op.OpMarkDelivered? || op.OpMarkCancelUnknown? || op.OpMarkCancelDelivered? || op.OpClaimCancel?
    ensures ApplyOp(db, op).reservations == db.reservations
  {
    hide FirstPendingCancel, LeaseCurrent;
  }

  lemma SettlingKeepsReservations(db: Tables, op: StoreOp)
    requires op.OpResolve? || op.OpRequeue? || op.OpRecover?
    ensures ApplyOp(db, op).reservations == db.reservations
  {
  }

  lemma RecordsKeepReservations(db: Tables, op: StoreOp)
    requires op.OpRecordQuote? || op.OpRecordAuthority? || op.OpAcquireLease? || op.OpSetBaseline?
    ensures ApplyOp(db, op).reservations == db.reservations
  {
  }

  /** A transaction keeps every account within its capacity exactly when it is no event, or one that fits. */
  lemma StepFitsExactly(db: Tables, op: StoreOp, capacity: Account -> nat)
    requires StoreInv(db) && WithinCapacity(db.reservations, capacity) && StagedWith(op, capacity)
    ensures WithinCapacity(ApplyOp(db, op).reservations, capacity) <==> StepFits(db, op, capacity)
  {
    hide StoreInv, WithinCapacity, Stage, ClaimNext, RequestCancel, Ingest, StillFits;
    match op
    case OpStage(capsule, reservation, intent) => StageWithinCapacity(db, capsule, reservation, intent, capacity);
    case OpClaim(lease, latest, at) => ClaimWithinCapacity(db, lease, latest, at, capacity);
    case OpRequestCancel(id, actor) => CancelWithinCapacity(db, id, actor, capacity);
    case OpIngest(e) => EventFitsExactly(db, e, capacity);
    case _ => OthersKeepReservations(db, op);
  }

  ghost predicate WithinAt(ops: seq<StoreOp>, capacity: Account -> nat, n: nat)
    requires n <= |ops|
  {
    WithinCapacity(RunOps(NEW_TABLES, ops[..n]).reservations, capacity)
  }

  ghost predicate FitsAt(ops: seq<StoreOp>, capacity: Account -> nat, n: nat)
    requires n < |ops|
  {
    StepFits(RunOps(NEW_TABLES, ops[..n]), ops[n], capacity)
  }

  lemma FitsAtExactly(ops: seq<StoreOp>, capacity: Account -> nat, n: nat)
    requires n < |ops| && StagedWith(ops[n], capacity) && WithinAt(ops, capacity, n)
    ensures WithinAt(ops, capacity, n + 1) <==> FitsAt(ops, capacity, n)
  {
    hide StoreInv, ApplyOp, WithinCapacity, StepFits, StagedWith;
    NewTablesInv();
    RunKeepsInv(NEW_TABLES, ops[..n]);
    assert ops[..n + 1][..n] == ops[..n];
    StepFitsExactly(RunOps(NEW_TABLES, ops[..n]), ops[n], capacity);
  }

  lemma {:induction false} WithinUpTo(ops: seq<StoreOp>, capacity: Account -> nat, n: nat)
    requires n <= |ops|
    requires forall i :: 0 <= i < n ==> StagedWith(ops[i], capacity) && FitsAt(ops, capacity, i)
    ensures WithinAt(ops, capacity, n)
  {
    if n == 0 {
      assert RunOps(NEW_TABLES, ops[..0]).reservations.Keys == {};
    } else {
      hide WithinAt, FitsAt, StagedWith;
      WithinUpTo(ops, capacity, n - 1);
      FitsAtExactly(ops, capacity, n - 1);
    }
  }

  /** The capacity, exactly. Over a run that stages with one capacity per account, no account ever holds more than its
      capacity if and only if every reservation that an event of the run writes back still fits at that moment. */
  lemma CapacityExactly(ops: seq<StoreOp>, capacity: Account -> nat)
    requires forall op :: op in ops ==> StagedWith(op, capacity)
    ensures (forall n :: 0 <= n <= |ops| ==> WithinAt(ops, capacity, n)) <==> (forall n :: 0 <= n < |ops| ==> FitsAt(ops, capacity, n))
  {
    hide WithinAt, FitsAt, StagedWith;
    if forall n :: 0 <= n <= |ops| ==> WithinAt(ops, capacity, n) {
      forall n | 0 <= n < |ops|
        ensures FitsAt(ops, capacity, n)
      {
        assert WithinAt(ops, capacity, n) && WithinAt(ops, capacity, n + 1);
        FitsAtExactly(ops, capacity, n);
      }
    } else if forall n :: 0 <= n < |ops| ==> FitsAt(ops, capacity, n) {
      forall n | 0 <= n <= |ops|
        ensures WithinAt(ops, capacity, n)
      {
        WithinUpTo(ops, capacity, n);
      }
    }
  }

  /** So it holds over every run that reactivates no reservation at all. */
  lemma CapacityHolds(ops: seq<StoreOp>, capacity: Account -> nat)
    requires forall op :: op in ops ==> StagedWith(op, capacity)
    requires forall n :: 0 <= n < |ops| && ops[n].OpIngest? ==> !Reactivates(RunOps(NEW_TABLES, ops[..n]), ops[n].event)
    ensures WithinCapacity(RunOps(NEW_TABLES, ops).reservations, capacity)
  {
    hide RunOps, Reactivates, WithinCapacity;
    CapacityExactly(ops, capacity);
    assert ops[..|ops|] == ops;
    assert forall n :: 0 <= n < |ops| ==> FitsAt(ops, capacity, n);
    assert WithinAt(ops, capacity, |ops|);
  }

  /* ---------- Shapes ---------- */

  lemma SlotIsFree(db: Tables, id: IntentId)
    requires IntentSlotFree(db, id)
    ensures id.key !in db.intents
  {
  }

  lemma BumpShape(intents: map<ClientOrderKey, IntentRow>, k: ClientOrderKey, status: ExecutionStatus)
    requires k in intents
    ensures var row := Bump(intents[k], status); row.intent == intents[k].intent && row.filled == intents[k].filled && row.status == status
  {
  }
}

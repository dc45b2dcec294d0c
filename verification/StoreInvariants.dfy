/** What every transaction of the execution store keeps, over any sequence of transactions. */
module StoreInvariants {
  import opened ControlModels
  import opened Admission
  import opened ControlTables
  import opened FreezeGate
  import opened Ledger
  import opened Sums

  /* ---------- The invariant ---------- */

  /** The filled quantity is the capped sum over the distinct events of the key. */
  ghost predicate IntentMatches(k: ClientOrderKey, row: IntentRow, applied: set<BrokerEvent>) {
    && row.intent.Key() == k
    && row.filled == Min(k.quantity, FilledQuantity(applied, k))
    && (row.status == Filled ==> row.filled == k.quantity)
  }

  ghost predicate IntentsMatch(intents: map<ClientOrderKey, IntentRow>, applied: set<BrokerEvent>) {
    forall k :: k in intents ==> IntentMatches(k, intents[k], applied)
  }

  /** One intent per decision. */
  predicate DecisionsUnique(intents: map<ClientOrderKey, IntentRow>) {
    forall j, k :: j in intents && k in intents && j.decisionId == k.decisionId ==> j == k
  }

  /** A reservation covers its intent and has consumed exactly what the intent has filled. */
  predicate ReservationMatches(k: ClientOrderKey, row: IntentRow, reservations: map<ReservationId, ReservationRow>) {
    var rid := row.intent.id.reservationId;
    && rid in reservations
    && rid.decisionId == k.decisionId
    && k.quantity <= reservations[rid].reservation.quantityReserved
    && (reservations[rid].reservation.quantityConsumed == 0 ==> reservations[rid].consumed == row.filled)
    && (reservations[rid].status == Consumed ==> row.filled == k.quantity)
  }

  predicate OwnedBy(intents: map<ClientOrderKey, IntentRow>, r: ReservationId) {
    exists k :: k in intents && intents[k].intent.id.reservationId == r
  }

  /** Intents and reservations are staged in pairs. */
  predicate ReservationsMatch(intents: map<ClientOrderKey, IntentRow>, reservations: map<ReservationId, ReservationRow>) {
    && (forall k :: k in intents ==> ReservationMatches(k, intents[k], reservations))
    && (forall r :: r in reservations ==> OwnedBy(intents, r))
  }

  /** The applied events are exactly those the inbox marks APPLIED; ids name them. */
  ghost predicate InboxMatches(inbox: map<EventId, InboxStatus>, applied: set<BrokerEvent>, intents: map<ClientOrderKey, IntentRow>) {
    && (forall e :: e in applied ==> e.id in inbox && inbox[e.id] == Applied && e.Key() in intents)
    && (forall id :: id in inbox && inbox[id] == Applied ==> exists e :: e in applied && e.id == id)
    && (forall e, f :: e in applied && f in applied && e.id == f.id ==> e == f)
  }

  /** The incrementally maintained books are the replay of the applied events. */
  ghost predicate BooksMatch(db: Tables) {
    && db.positions == PositionBook(db.applied)
    && db.cashDelta == CashFlow(db.applied)
    && db.commissions == TotalCommission(db.applied)
  }

  /** Commands are filed under the key of their intent. */
  predicate OutboxFiled(outbox: map<ClientOrderKey, OutboxRow>) {
    forall k :: k in outbox ==> outbox[k].intent.Key() == k
  }

  predicate CancelsFiled(cancels: map<ClientOrderKey, CancelRow>, intents: map<ClientOrderKey, IntentRow>) {
    forall k :: k in cancels ==> cancels[k].intentId.key == k && k in intents && intents[k].intent.id == cancels[k].intentId
  }

  ghost predicate StoreInv(db: Tables) {
    && IntentsMatch(db.intents, db.applied)
    && DecisionsUnique(db.intents)
    && ReservationsMatch(db.intents, db.reservations)
    && InboxMatches(db.inbox, db.applied, db.intents)
    && BooksMatch(db)
    && OutboxFiled(db.outbox)
    && CancelsFiled(db.cancels, db.intents)
    && GateInv(db.gate)
  }

  /* ---------- Transactions that move no quantities ---------- */

  /** The same intents with the same fills; only labels may differ, and none newly reads FILLED. */
  predicate Relabeled(before: map<ClientOrderKey, IntentRow>, after: map<ClientOrderKey, IntentRow>) {
    && before.Keys == after.Keys
    && forall k :: k in before ==>
         && after[k].intent == before[k].intent
         && after[k].filled == before[k].filled
         && (after[k].status == Filled ==> before[k].status == Filled)
  }

  predicate ReservationsKept(before: map<ReservationId, ReservationRow>, after: map<ReservationId, ReservationRow>) {
    && before.Keys == after.Keys
    && forall r :: r in before ==>
         && after[r].reservation == before[r].reservation
         && after[r].consumed == before[r].consumed
         && (after[r].status == Consumed ==> before[r].status == Consumed)
  }

  predicate SameEconomics(db: Tables, after: Tables) {
    && after.applied == db.applied && after.inbox == db.inbox && after.positions == db.positions
    && after.cashDelta == db.cashDelta && after.commissions == db.commissions
  }

  predicate Quiet(db: Tables, after: Tables) {
    && SameEconomics(db, after)
    && Relabeled(db.intents, after.intents)
    && ReservationsKept(db.reservations, after.reservations)
  }

  lemma QuietIntents(before: map<ClientOrderKey, IntentRow>, after: map<ClientOrderKey, IntentRow>, applied: set<BrokerEvent>)
    requires IntentsMatch(before, applied) && Relabeled(before, after)
    ensures IntentsMatch(after, applied)
  {
    hide FilledQuantity;
    forall k | k in after
      ensures IntentMatches(k, after[k], applied)
    {
      assert IntentMatches(k, before[k], applied);
    }
  }

  lemma QuietReservations(db: Tables, after: Tables)
    requires ReservationsMatch(db.intents, db.reservations)
    requires Relabeled(db.intents, after.intents) && ReservationsKept(db.reservations, after.reservations)
    ensures ReservationsMatch(after.intents, after.reservations)
  {
    forall k | k in after.intents
      ensures ReservationMatches(k, after.intents[k], after.reservations)
    {
      assert ReservationMatches(k, db.intents[k], db.reservations);
    }
    forall r | r in after.reservations
      ensures OwnedBy(after.intents, r)
    {
      var k :| k in db.intents && db.intents[k].intent.id.reservationId == r;
      assert after.intents[k].intent.id.reservationId == r;
    }
  }

  lemma QuietKeepsInv(db: Tables, after: Tables)
    requires StoreInv(db) && Quiet(db, after) && after.cancels == db.cancels
    requires OutboxFiled(db.outbox) ==> OutboxFiled(after.outbox)
    requires GateInv(db.gate) ==> GateInv(after.gate)
    ensures StoreInv(after)
  {
    hide IntentsMatch, ReservationsMatch, PositionBook, CashFlow, TotalCommission, OutboxFiled, CancelsFiled, GateInv;
    QuietIntents(db.intents, after.intents, db.applied);
    QuietReservations(db, after);
    CancelsStayFiled(db.cancels, db.intents, after.intents);
  }

  /* ---------- The transactions that do ---------- */

  /** Rewriting the labels of one intent. */
  lemma RelabelOne(intents: map<ClientOrderKey, IntentRow>, k: ClientOrderKey, row: IntentRow)
    requires k in intents && row.intent == intents[k].intent && row.filled == intents[k].filled
    requires row.status == Filled ==> intents[k].status == Filled
    ensures Relabeled(intents, intents[k := row])
  {
  }

  lemma SameLabels(intents: map<ClientOrderKey, IntentRow>)
    ensures Relabeled(intents, intents)
  {
  }

  lemma CancelsStayFiled(cancels: map<ClientOrderKey, CancelRow>, before: map<ClientOrderKey, IntentRow>, after: map<ClientOrderKey, IntentRow>)
    requires CancelsFiled(cancels, before) && Relabeled(before, after)
    ensures CancelsFiled(cancels, after)
  {
  }

  lemma KeepOne(rows: map<ReservationId, ReservationRow>, r: ReservationId, row: ReservationRow)
    requires r in rows && row.reservation == rows[r].reservation && row.consumed == rows[r].consumed
    requires row.status == Consumed ==> rows[r].status == Consumed
    ensures ReservationsKept(rows, rows[r := row])
  {
  }

  lemma KeepAll(rows: map<ReservationId, ReservationRow>)
    ensures ReservationsKept(rows, rows)
  {
  }

  lemma FileOne(outbox: map<ClientOrderKey, OutboxRow>, k: ClientOrderKey, row: OutboxRow)
    requires OutboxFiled(outbox) && row.intent.Key() == k
    ensures OutboxFiled(outbox[k := row])
  {
  }

  /** The facts about one command that its rewriting needs. */
  lemma CommandKey(db: Tables, k: ClientOrderKey)
    requires StoreInv(db)
    ensures k in db.outbox ==> db.outbox[k].intent.Key() == k
    ensures k in db.cancels ==> db.cancels[k].intentId.key == k
  {
  }

  /** Most transactions relabel at most one intent and touch no economics. */
  lemma QuietStep(db: Tables, after: Tables, k: ClientOrderKey)
    requires StoreInv(db) && SameEconomics(db, after) && after.gate == db.gate
    requires after.reservations == db.reservations
    requires after.intents == db.intents || Relabels(db.intents, after.intents, k)
    requires after.outbox == db.outbox || (k in after.outbox && after.outbox[k].intent.Key() == k && after.outbox == db.outbox[k := after.outbox[k]])
    requires after.cancels == db.cancels
    ensures StoreInv(after)
  {
    hide Relabeled, ReservationsKept, OutboxFiled, StoreInv, GateInv;
    SameLabels(db.intents);
    KeepAll(db.reservations);
    if after.intents != db.intents { RelabelOne(db.intents, k, after.intents[k]); }
    if after.outbox != db.outbox && OutboxFiled(db.outbox) { FileOne(db.outbox, k, after.outbox[k]); }
    QuietKeepsInv(db, after);
  }

  predicate Relabels(before: map<ClientOrderKey, IntentRow>, after: map<ClientOrderKey, IntentRow>, k: ClientOrderKey) {
    && k in before && k in after && after == before[k := after[k]]
    && after[k].intent == before[k].intent && after[k].filled == before[k].filled
    && (after[k].status == Filled ==> before[k].status == Filled)
  }

  lemma EnqueueKeepsInv(db: Tables, intent: ExecutionIntent)
    requires StoreInv(db)
    ensures var r := Enqueue(db, intent); r.Ok? ==> StoreInv(r.value)
  {
    hide StoreInv, Relabeled, ReservationsKept, OutboxFiled, CancelsFiled;
    var r := Enqueue(db, intent);
    if r.Ok? {
      var k := intent.Key();
      QuietStep(db, r.value, k);
    }
  }

  /** A new intent has no applied events yet, because applied events belong to stored intents. */
  lemma NewIntentMatches(db: Tables, intent: ExecutionIntent)
    requires InboxMatches(db.inbox, db.applied, db.intents) && intent.Key() !in db.intents
    ensures FilledQuantity(db.applied, intent.Key()) == 0
  {
    SumZero(db.applied, FilledWeight(intent.Key()));
  }

  /** Reservation and intent slots are free together. */
  lemma SlotsAgree(db: Tables, id: IntentId)
    requires StoreInv(db) && id.reservationId.decisionId == id.key.decisionId
    ensures IntentSlotFree(db, id) <==> !DecisionTaken(db.reservations, id.key.decisionId)
  {
    hide IntentsMatch, BooksMatch, InboxMatches, GateInv;
    if DecisionTaken(db.reservations, id.key.decisionId) {
      var r :| r in db.reservations && r.decisionId == id.key.decisionId;
      assert OwnedBy(db.intents, r);
      var k :| k in db.intents && db.intents[k].intent.id.reservationId == r;
      assert ReservationMatches(k, db.intents[k], db.reservations);
    } else {
      forall k | k in db.intents
        ensures k.decisionId != id.key.decisionId && db.intents[k].intent.id.reservationId != id.reservationId
      {
        assert ReservationMatches(k, db.intents[k], db.reservations);
      }
    }
  }

  lemma SameBooks(db: Tables, after: Tables)
    requires BooksMatch(db) && SameEconomics(db, after)
    ensures BooksMatch(after)
  {
    hide PositionBook, CashFlow, TotalCommission;
  }

  lemma PairReservations(db: Tables, capsule: DecisionCapsule, reservation: RiskReservation, intent: ExecutionIntent)
    requires ReservationsMatch(db.intents, db.reservations) && StageBinds(capsule, reservation, intent)
    requires IntentSlotFree(db, intent.id) && !DecisionTaken(db.reservations, intent.Key().decisionId)
    ensures var after := WithPair(db, capsule, reservation, intent); ReservationsMatch(after.intents, after.reservations)
  {
    var after := WithPair(db, capsule, reservation, intent);
    forall k | k in after.intents
      ensures ReservationMatches(k, after.intents[k], after.reservations)
    {
      if k != intent.Key() { assert ReservationMatches(k, db.intents[k], db.reservations); }
    }
    forall r | r in after.reservations
      ensures OwnedBy(after.intents, r)
    {
      if r == reservation.id {
        assert after.intents[intent.Key()].intent.id.reservationId == r;
      } else {
        assert OwnedBy(db.intents, r);
        var k :| k in db.intents && db.intents[k].intent.id.reservationId == r;
        assert after.intents[k].intent.id.reservationId == r;
      }
    }
  }

  lemma PairIntents(db: Tables, capsule: DecisionCapsule, reservation: RiskReservation, intent: ExecutionIntent)
    requires StoreInv(db) && IntentSlotFree(db, intent.id) && intent.status != Filled
    ensures var after := WithPair(db, capsule, reservation, intent); IntentsMatch(after.intents, after.applied)
  {
    hide FilledQuantity, BooksMatch, GateInv, ReservationsMatch;
    var after := WithPair(db, capsule, reservation, intent);
    NewIntentMatches(db, intent);
    forall k | k in after.intents
      ensures IntentMatches(k, after.intents[k], after.applied)
    {
      if k != intent.Key() { assert IntentMatches(k, db.intents[k], db.applied); }
    }
  }

  lemma PairNames(db: Tables, capsule: DecisionCapsule, reservation: RiskReservation, intent: ExecutionIntent)
    requires InboxMatches(db.inbox, db.applied, db.intents) && DecisionsUnique(db.intents) && CancelsFiled(db.cancels, db.intents)
    requires IntentSlotFree(db, intent.id)
    ensures var after := WithPair(db, capsule, reservation, intent);
            InboxMatches(after.inbox, after.applied, after.intents) && DecisionsUnique(after.intents) && CancelsFiled(after.cancels, after.intents)
  {
  }

  lemma PairKeepsInv(db: Tables, capsule: DecisionCapsule, reservation: RiskReservation, intent: ExecutionIntent)
    requires StoreInv(db) && StageBinds(capsule, reservation, intent)
    ensures StoreInv(WithPair(db, capsule, reservation, intent))
  {
    hide IntentsMatch, BooksMatch, ReservationsMatch, InboxMatches, DecisionsUnique, CancelsFiled, OutboxFiled, GateInv;
    SlotsAgree(db, intent.id);
    SameBooks(db, WithPair(db, capsule, reservation, intent));
    if IntentSlotFree(db, intent.id) {
      PairReservations(db, capsule, reservation, intent);
      PairIntents(db, capsule, reservation, intent);
      PairNames(db, capsule, reservation, intent);
    }
  }

  lemma StageKeepsInv(db: Tables, capsule: DecisionCapsule, reservation: RiskReservation, intent: ExecutionIntent)
    requires StoreInv(db)
    ensures StoreInv(Stage(db, capsule, reservation, intent).db)
  {
    hide StoreInv, HeldNotional;
    if StageBinds(capsule, reservation, intent) {
      PairKeepsInv(db, capsule, reservation, intent);
      EnqueueKeepsInv(WithPair(db, capsule, reservation, intent), intent);
    }
  }

  lemma ApproveKeepsInv(db: Tables, id: IntentId, actor: Name, at: Time)
    requires StoreInv(db)
    ensures StoreInv(Approve(db, id, actor, at).db)
  {
    hide StoreInv;
    var r := Approve(db, id, actor, at);
    if r.result.Ok? { QuietStep(db, r.db, id.key); }
  }

  /** Changing only the gate, to another sound gate. */
  lemma GateStepKeepsInv(db: Tables, gate: Gate)
    requires StoreInv(db) && (GateInv(db.gate) ==> GateInv(gate))
    ensures StoreInv(db.(gate := gate))
  {
    hide IntentsMatch, ReservationsMatch, InboxMatches, DecisionsUnique, OutboxFiled, CancelsFiled, GateInv;
    SameBooks(db, db.(gate := gate));
  }

  lemma TicketKeepsInv(db: Tables, reason: FreezeReason, source: TicketSource, severity: Severity, at: Time, inTransaction: bool)
    requires StoreInv(db)
    ensures var r := OpenTicket(db.gate, reason, source, severity, at, inTransaction); r.Ok? ==> StoreInv(db.(gate := r.value))
  {
    hide StoreInv;
    var r := OpenTicket(db.gate, reason, source, severity, at, inTransaction);
    if r.Ok? {
      if GateInv(db.gate) { OpenKeepsGate(db.gate, reason, source, severity, at, inTransaction); }
      GateStepKeepsInv(db, r.value);
    }
  }

  lemma ArmKeepsInv(db: Tables, id: IntentId, request: ArmRequest, at: Time)
    requires StoreInv(db)
    ensures StoreInv(ArmApprovedIntent(db, id, request, at).db)
  {
    hide StoreInv, OpenTicket, Eligible, EvaluateQuoteAdmission, ArmExpiry;
    var r := ArmApprovedIntent(db, id, request, at);
    TicketKeepsInv(db, BrokerAuthorityStale, ApprovalArmSource, Blocking, at, true);
    TicketKeepsInv(db, MarketQuoteStale, ApprovalArmSource, Blocking, at, true);
    if r.result.Ok? {
      var intent := db.intents[id.key].intent;
      EnqueueKeepsInv(db, intent);
      var queued := Enqueue(db, intent);
      if queued.Ok? { UntouchedKeepsInv(queued.value, queued.value.(arms := r.db.arms)); }
    }
  }

  /** Tables that differ only in what no economic invariant mentions. */
  lemma UntouchedKeepsInv(db: Tables, after: Tables)
    requires StoreInv(db) && SameEconomics(db, after) && after.gate == db.gate
    requires after.intents == db.intents && after.reservations == db.reservations
    requires after.outbox == db.outbox && after.cancels == db.cancels
    ensures StoreInv(after)
  {
    hide IntentsMatch, ReservationsMatch, InboxMatches, DecisionsUnique, OutboxFiled, CancelsFiled, GateInv;
    SameBooks(db, after);
  }

  /** Expiring a claimable command relabels its intent and its reservation. */
  lemma ExpireKeepsInv(db: Tables, k: ClientOrderKey, at: Time)
    requires StoreInv(db) && Claimable(db, k)
    ensures StoreInv(ExpireCommand(db, k, at))
  {
    hide Relabeled, ReservationsKept, OutboxFiled, StoreInv, GateInv;
    var after := ExpireCommand(db, k, at);
    var r := db.intents[k].intent.id.reservationId;
    CommandKey(db, k);
    RelabelOne(db.intents, k, after.intents[k]);
    KeepOne(db.reservations, r, after.reservations[r]);
    if OutboxFiled(db.outbox) { FileOne(db.outbox, k, after.outbox[k]); }
    QuietKeepsInv(db, after);
  }

  lemma TakeKeepsInv(db: Tables, k: ClientOrderKey, verdict: ArmVerdict, token: nat, at: Time)
    requires StoreInv(db) && Claimable(db, k)
    requires verdict.ArmAdmits? ==> verdict.index < |ArmsOf(db, k)|
    ensures StoreInv(TakeCommand(db, k, verdict, token, at))
  {
    hide StoreInv;
    CommandKey(db, k);
    QuietStep(db, TakeCommand(db, k, verdict, token, at), k);
  }

  lemma ArmsKeepInv(db: Tables, arms: map<ClientOrderKey, seq<Arm>>)
    requires StoreInv(db)
    ensures StoreInv(db.(arms := arms))
  {
    hide StoreInv;
    UntouchedKeepsInv(db, db.(arms := arms));
  }

  lemma ClaimKeepsInv(db: Tables, lease: ExecutionLease, latest: Option<Digest>, at: Time)
    requires StoreInv(db)
    ensures StoreInv(ClaimNext(db, lease, latest, at).db)
  {
    hide StoreInv, ExpireCommand, TakeCommand, LeaseCurrent, FirstClaimable, JudgeArm, WithArmStatus;
    var found := FirstClaimable(db, db.outboxOrder);
    if !db.gate.frozen && LeaseCurrent(db, lease, at) && found.Some? {
      var k := found.value;
      var verdict := JudgeArm(db, k, latest, at);
      if verdict.ArmRefuses? {
        ArmsKeepInv(db, db.arms[k := WithArmStatus(ArmsOf(db, k), verdict.index, ArmExpiredStatus)]);
      } else {
        ExpireKeepsInv(db, k, at);
        TakeKeepsInv(db, k, verdict, lease.fencingToken, at);
      }
    }
  }

  lemma MarkUnknownKeepsInv(db: Tables, id: IntentId, reason: Name)
    requires StoreInv(db)
    ensures StoreInv(MarkSubmissionUnknown(db, id, reason).db)
  {
    hide StoreInv;
    var r := MarkSubmissionUnknown(db, id, reason);
    if r.result.Ok? { QuietStep(db, r.db, id.key); }
  }

  lemma MarkDeliveredKeepsInv(db: Tables, id: IntentId)
    requires StoreInv(db)
    ensures StoreInv(MarkDelivered(db, id))
  {
    hide StoreInv;
    if HasCommand(db, id) { QuietStep(db, MarkDelivered(db, id), id.key); }
  }

  lemma ResolveKeepsInv(db: Tables, k: ClientOrderKey, brokerOrderId: nat)
    requires StoreInv(db)
    ensures StoreInv(ResolveUnknown(db, k, brokerOrderId))
  {
    hide StoreInv;
    if Unresolved(db, k) {
      CommandKey(db, k);
      QuietStep(db, ResolveUnknown(db, k, brokerOrderId), k);
    }
  }

  lemma RequeueKeepsInv(db: Tables, k: ClientOrderKey, asOf: Time)
    requires StoreInv(db)
    ensures StoreInv(RequeueUnknown(db, k, asOf).db)
  {
    hide StoreInv;
    var r := RequeueUnknown(db, k, asOf);
    if r.result.Ok? && r.result.value {
      CommandKey(db, k);
      QuietStep(db, r.db, k);
    }
  }

  lemma RecoverShape(db: Tables, keys: set<ClientOrderKey>)
    ensures var after := RecoverClaimed(db, keys);
            Relabeled(db.intents, after.intents) && (OutboxFiled(db.outbox) ==> OutboxFiled(after.outbox))
  {
  }

  lemma RecoverKeepsInv(db: Tables, keys: set<ClientOrderKey>)
    requires StoreInv(db)
    ensures StoreInv(RecoverClaimed(db, keys))
  {
    hide Relabeled, ReservationsKept, OutboxFiled, StoreInv, GateInv;
    RecoverShape(db, keys);
    KeepAll(db.reservations);
    QuietKeepsInv(db, RecoverClaimed(db, keys));
  }

  /** Recording a cancel request for an intent. */
  lemma CancelsGrow(cancels: map<ClientOrderKey, CancelRow>, intents: map<ClientOrderKey, IntentRow>, k: ClientOrderKey, row: CancelRow)
    requires CancelsFiled(cancels, intents) && row.intentId.key == k && k in intents && intents[k].intent.id == row.intentId
    ensures CancelsFiled(cancels[k := row], intents)
  {
  }

  lemma CancelsRewrite(cancels: map<ClientOrderKey, CancelRow>, intents: map<ClientOrderKey, IntentRow>, k: ClientOrderKey, row: CancelRow)
    requires CancelsFiled(cancels, intents) && k in cancels && row.intentId == cancels[k].intentId
    ensures CancelsFiled(cancels[k := row], intents)
  {
  }

  /** Cancelling releases the reservation without changing what it has consumed. */
  lemma ReleaseMatches(db: Tables, after: Tables, k: ClientOrderKey)
    requires ReservationsMatch(db.intents, db.reservations) && DecisionsUnique(db.intents) && k in db.intents
    requires Relabels(db.intents, after.intents, k)
    requires after.reservations == UpdatedReservation(db.reservations, db.intents[k].intent.id.reservationId, db.intents[k].filled, k.quantity, Cancelled)
    ensures ReservationsMatch(after.intents, after.reservations)
  {
    forall j | j in after.intents
      ensures ReservationMatches(j, after.intents[j], after.reservations)
    {
      assert ReservationMatches(j, db.intents[j], db.reservations);
      assert ReservationMatches(k, db.intents[k], db.reservations);
    }
    forall r | r in after.reservations
      ensures OwnedBy(after.intents, r)
    {
      assert OwnedBy(db.intents, r);
      var j :| j in db.intents && db.intents[j].intent.id.reservationId == r;
      assert after.intents[j].intent.id.reservationId == r;
    }
  }

  lemma SameNames(db: Tables, after: Tables)
    requires InboxMatches(db.inbox, db.applied, db.intents) && DecisionsUnique(db.intents)
    requires SameEconomics(db, after) && Relabeled(db.intents, after.intents)
    ensures InboxMatches(after.inbox, after.applied, after.intents) && DecisionsUnique(after.intents)
  {
  }

  lemma RequestCancelKeepsInv(db: Tables, id: IntentId, actor: Name)
    requires StoreInv(db)
    ensures StoreInv(RequestCancel(db, id, actor).db)
  {
    hide IntentsMatch, ReservationsMatch, BooksMatch, GateInv, CancelsFiled, OutboxFiled, InboxMatches;
    hide DecisionsUnique, Relabeled, ReservationsKept;
    var k := id.key;
    var r := RequestCancel(db, id, actor);
    if r.result.Ok? && k !in db.cancels {
      RelabelOne(db.intents, k, r.db.intents[k]);
      CancelsStayFiled(db.cancels, db.intents, r.db.intents);
      CancelsGrow(db.cancels, r.db.intents, k, r.db.cancels[k]);
      if r.db.outbox != db.outbox { FileOne(db.outbox, k, r.db.outbox[k]); }
      QuietIntents(db.intents, r.db.intents, db.applied);
      SameBooks(db, r.db);
      SameNames(db, r.db);
      KeepAll(db.reservations);
      if LocalOnly(db.intents[k].status) { ReleaseMatches(db, r.db, k); } else { QuietReservations(db, r.db); }
    }
  }

  /** Rewriting one cancel command, and possibly the label of its intent. */
  lemma CancelStep(db: Tables, after: Tables, k: ClientOrderKey)
    requires StoreInv(db) && SameEconomics(db, after) && after.gate == db.gate && after.reservations == db.reservations
    requires k in db.cancels && k in after.cancels && after.cancels == db.cancels[k := after.cancels[k]]
    requires after.cancels[k].intentId == db.cancels[k].intentId
    requires after.intents == db.intents || Relabels(db.intents, after.intents, k)
    requires after.outbox == db.outbox
    ensures StoreInv(after)
  {
    hide Relabeled, ReservationsKept, ReservationsMatch, IntentsMatch, InboxMatches, BooksMatch;
    hide DecisionsUnique, CancelsFiled, OutboxFiled, GateInv;
    SameLabels(db.intents);
    KeepAll(db.reservations);
    if after.intents != db.intents { RelabelOne(db.intents, k, after.intents[k]); }
    var relabeled := after.(cancels := db.cancels);
    QuietKeepsInv(db, relabeled);
    CancelsRewrite(db.cancels, after.intents, k, after.cancels[k]);
    SameBooks(relabeled, after);
  }

  lemma ClaimCancelKeepsInv(db: Tables, lease: ExecutionLease, at: Time)
    requires StoreInv(db)
    ensures StoreInv(ClaimNextCancel(db, lease, at).db)
  {
    hide StoreInv;
    var r := ClaimNextCancel(db, lease, at);
    if r.result.Ok? && r.result.value.Some? {
      CancelStep(db, r.db, FirstPendingCancel(db, db.cancelOrder).value);
    }
  }

  lemma MarkCancelUnknownKeepsInv(db: Tables, k: ClientOrderKey, reason: Name)
    requires StoreInv(db)
    ensures StoreInv(MarkCancelUnknown(db, k, reason).db)
  {
    hide StoreInv;
    var r := MarkCancelUnknown(db, k, reason);
    if r.result.Ok? {
      CommandKey(db, k);
      CancelStep(db, r.db, k);
    }
  }

  lemma MarkCancelDeliveredKeepsInv(db: Tables, k: ClientOrderKey)
    requires StoreInv(db)
    ensures StoreInv(MarkCancelDelivered(db, k))
  {
    hide StoreInv;
    if k in db.cancels { CancelStep(db, MarkCancelDelivered(db, k), k); }
  }

  /* ---------- Broker events ---------- */

  /** An event moves its own intent to the next capped sum. */
  lemma IngestIntents(intents: map<ClientOrderKey, IntentRow>, applied: set<BrokerEvent>, e: BrokerEvent)
    requires IntentsMatch(intents, applied) && e !in applied && e.Key() in intents
    ensures IntentsMatch(intents[e.Key() := AppliedRow(intents[e.Key()], e)], applied + {e})
  {
    hide FilledQuantity;
    var after := intents[e.Key() := AppliedRow(intents[e.Key()], e)];
    forall k | k in after
      ensures IntentMatches(k, after[k], applied + {e})
    {
      FilledInsert(applied, e, k);
      assert IntentMatches(k, intents[k], applied);
    }
  }

  lemma IngestReservations(
    intents: map<ClientOrderKey, IntentRow>, reservations: map<ReservationId, ReservationRow>, k: ClientOrderKey, row: IntentRow)
    requires ReservationsMatch(intents, reservations) && DecisionsUnique(intents) && k in intents && row.intent == intents[k].intent
    ensures ReservationsMatch(
      intents[k := row],
      UpdatedReservation(reservations, row.intent.id.reservationId, row.filled, k.quantity, row.status))
  {
    var after := intents[k := row];
    var rows := UpdatedReservation(reservations, row.intent.id.reservationId, row.filled, k.quantity, row.status);
    assert ReservationMatches(k, intents[k], reservations);
    forall j | j in after
      ensures ReservationMatches(j, after[j], rows)
    {
      assert ReservationMatches(j, intents[j], reservations);
    }
    forall r | r in rows
      ensures OwnedBy(after, r)
    {
      assert OwnedBy(intents, r);
      var j :| j in intents && intents[j].intent.id.reservationId == r;
      assert after[j].intent.id.reservationId == r;
    }
  }

  lemma IngestInbox(db: Tables, after: Tables, e: BrokerEvent)
    requires InboxMatches(db.inbox, db.applied, db.intents) && e.id !in db.inbox && e.Key() in db.intents
    requires after.inbox == db.inbox[e.id := Applied] && after.applied == db.applied + {e} && after.intents.Keys == db.intents.Keys
    ensures e !in db.applied && InboxMatches(after.inbox, after.applied, after.intents)
  {
    forall id | id in after.inbox && after.inbox[id] == Applied
      ensures exists f :: f in after.applied && f.id == id
    {
      if id == e.id {
        assert e in after.applied;
      } else {
        var f :| f in db.applied && f.id == id;
        assert f in after.applied;
      }
    }
  }

  lemma IngestBooks(db: Tables, after: Tables, e: BrokerEvent)
    requires BooksMatch(db) && e !in db.applied && after.applied == db.applied + {e}
    requires after.positions == Booked(db.positions, e)
    requires after.cashDelta == db.cashDelta + CashEffect(e) && after.commissions == db.commissions + e.id.commission
    ensures BooksMatch(after)
  {
    CashInsert(db.applied, e);
    BookInsert(db.applied, e);
  }

  /** The tables after an event has been applied to a stored intent. */
  lemma ApplyKeepsInv(db: Tables, e: BrokerEvent)
    requires StoreInv(db) && e.id !in db.inbox && e.Key() in db.intents && (e.IsFill() ==> e.id.fillPrice.Some?)
    ensures StoreInv(Ingest(db, e).db)
  {
    hide IntentsMatch, ReservationsMatch, BooksMatch, InboxMatches, GateInv, CancelsFiled, OutboxFiled, Booked;
    var after := Ingest(db, e).db;
    var k := e.Key();
    IngestInbox(db, after, e);
    IngestIntents(db.intents, db.applied, e);
    IngestReservations(db.intents, db.reservations, k, AppliedRow(db.intents[k], e));
    BookedByIngest(db, e);
    IngestBooks(db, after, e);
    IngestCancels(db, e);
    assert DecisionsUnique(after.intents);
  }

  lemma IngestCancels(db: Tables, e: BrokerEvent)
    requires CancelsFiled(db.cancels, db.intents) && e.Key() in db.intents
    ensures CancelsFiled(db.cancels, db.intents[e.Key() := AppliedRow(db.intents[e.Key()], e)])
  {
  }

  lemma BookedByIngest(db: Tables, e: BrokerEvent)
    requires e.id !in db.inbox && e.Key() in db.intents && (e.IsFill() ==> e.id.fillPrice.Some?)
    ensures Ingest(db, e).db.positions == Booked(db.positions, e)
  {
  }

  /** An event of an unknown order is kept as an orphan and freezes the store. */
  lemma OrphanKeepsInv(db: Tables, e: BrokerEvent)
    requires StoreInv(db) && e.id !in db.inbox && e.Key() !in db.intents
    ensures StoreInv(Ingest(db, e).db)
  {
    hide IntentsMatch, ReservationsMatch, DecisionsUnique, GateInv, CancelsFiled, OutboxFiled, StoreInv, OpenTicket;
    TicketKeepsInv(db, BrokerOnlyOrderOrEvent, Legacy, Blocking, e.receivedAt, true);
    var r := OpenTicket(db.gate, BrokerOnlyOrderOrEvent, Legacy, Blocking, e.receivedAt, true);
    if r.Ok? {
      OrphanRow(db.(gate := r.value), e.id);
    }
  }

  lemma OrphanRow(db: Tables, id: EventId)
    requires StoreInv(db) && id !in db.inbox
    ensures StoreInv(db.(inbox := db.inbox[id := Orphan]))
  {
    hide IntentsMatch, ReservationsMatch, DecisionsUnique, GateInv, CancelsFiled, OutboxFiled, PositionBook;
    hide CashFlow, TotalCommission;
    var inbox := db.inbox[id := Orphan];
    assert InboxMatches(inbox, db.applied, db.intents);
  }

  lemma IngestKeepsInv(db: Tables, e: BrokerEvent)
    requires StoreInv(db)
    ensures StoreInv(Ingest(db, e).db)
  {
    hide StoreInv;
    if e.id !in db.inbox {
      if e.Key() !in db.intents {
        OrphanKeepsInv(db, e);
      } else if e.IsFill() ==> e.id.fillPrice.Some? {
        ApplyKeepsInv(db, e);
      }
    }
  }

  lemma AppliedRowGrows(row: IntentRow, e: BrokerEvent)
    requires row.filled <= e.Key().quantity && (row.status == Filled ==> row.filled == e.Key().quantity)
    ensures row.filled <= AppliedRow(row, e).filled <= e.Key().quantity
    ensures row.status == Filled ==> AppliedRow(row, e).status == Filled
  {
  }

  lemma PricedMovesOwn(db: Tables, e: BrokerEvent)
    requires e.Key() in db.intents && (e.IsFill() ==> e.id.fillPrice.Some?)
    ensures Ingest(db, e).db.intents ==
            if e.id in db.inbox then db.intents else db.intents[e.Key() := AppliedRow(db.intents[e.Key()], e)]
  {
    hide AppliedRow, CashEffect, UpdatedReservation, OpenTicket;
  }

  lemma UnpricedMovesNone(db: Tables, e: BrokerEvent)
    requires e.Key() in db.intents && e.IsFill() && e.id.fillPrice.None?
    ensures Ingest(db, e).db == db
  {
    hide OpenTicket;
  }

  lemma IngestMovesOwn(db: Tables, e: BrokerEvent)
    requires e.Key() in db.intents
    ensures Ingest(db, e).db.intents == db.intents || Ingest(db, e).db.intents == db.intents[e.Key() := AppliedRow(db.intents[e.Key()], e)]
  {
    hide AppliedRow, Ingest;
    if e.IsFill() && e.id.fillPrice.None? { UnpricedMovesNone(db, e); } else { PricedMovesOwn(db, e); }
  }

  lemma OrphanMovesNone(db: Tables, e: BrokerEvent)
    requires e.Key() !in db.intents
    ensures Ingest(db, e).db.intents == db.intents
  {
    hide OpenTicket;
    var r := OpenTicket(db.gate, BrokerOnlyOrderOrEvent, Legacy, Blocking, e.receivedAt, true);
    assert r.Err? || db.(gate := r.value, inbox := db.inbox[e.id := Orphan]).intents == db.intents;
  }

  /** FILLED survives every broker event and fills never shrink. */
  lemma FilledSurvivesEvents(db: Tables, e: BrokerEvent, k: ClientOrderKey)
    requires StoreInv(db) && k in db.intents
    ensures var after := Ingest(db, e).db;
            && k in after.intents
            && db.intents[k].filled <= after.intents[k].filled <= k.quantity
            && (db.intents[k].status == Filled ==> after.intents[k].status == Filled)
  {
    assert IntentMatches(k, db.intents[k], db.applied);
    hide StoreInv, AppliedRow, FilledQuantity, Ingest;
    if e.Key() in db.intents { IngestMovesOwn(db, e); } else { OrphanMovesNone(db, e); }
    if e.Key() == k { AppliedRowGrows(db.intents[k], e); }
  }
}

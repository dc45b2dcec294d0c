/** What becomes of submit and cancel commands after they were handed out, and what the remaining small transactions write,
    for every store, stated on the tables. */
module CommandLaws {
  import opened ControlModels
  import opened ControlTables
  import opened Sums

  /** The command and the intent that it carries, if that intent is the one stored under its key. */
  predicate Carries(db: Tables, k: ClientOrderKey) {
    k in db.outbox && k in db.intents && db.intents[k].intent.id == db.outbox[k].intent.id
  }

  /** The command becomes `command`; the intent it carries gets this status, if one is given; one note is added; nothing
      else changes. */
  predicate Leaves(after: Tables, db: Tables, k: ClientOrderKey, command: OutboxRow, status: Option<ExecutionStatus>, note: NoteKind)
    requires k in db.outbox
  {
    && after.outbox == db.outbox[k := command]
    && (Carries(db, k) && status.Some? ==>
          after.intents == db.intents[k := db.intents[k].(status := status.value, version := db.intents[k].version + 1)])
    && (!Carries(db, k) || status.None? ==> after.intents == db.intents)
    && after.notes == db.notes + {OrderNote(db.outbox[k].intent.id, note)}
    && after == db.(outbox := after.outbox, intents := after.intents, notes := after.notes)
  }

  /* ---------- The outcome of a submission ---------- */

  predicate Sent(db: Tables, id: IntentId) { id.key in db.outbox && db.outbox[id.key].intent.id == id }

  /** An unanswered submission, exactly: command and intent become unknown, from whatever they were. */
  lemma UnknownExactly(db: Tables, id: IntentId, reason: Name)
    ensures var r := MarkSubmissionUnknown(db, id, reason);
            && (!Sent(db, id) ==> r == Outcome(db, Err(UnknownCommand)))
            && (Sent(db, id) ==>
                  r.result == Ok(())
                  && Leaves(r.db, db, id.key, db.outbox[id.key].(status := OutboxStatus.Unknown), Some(SubmissionUnknown), SubmissionUnknownNote(reason)))
  {
  }

  /** A delivery, exactly: only the command changes. */
  lemma DeliveredExactly(db: Tables, id: IntentId)
    ensures Sent(db, id) ==>
              MarkDelivered(db, id) == db.(outbox := db.outbox[id.key := db.outbox[id.key].(status := OutboxStatus.Delivered)])
    ensures !Sent(db, id) ==> MarkDelivered(db, id) == db
  {
  }

  /** A recovery, exactly: each claimed command becomes unknown and so does the intent it carries; every other command and
      intent is left alone. */
  lemma RecoverExactly(db: Tables, k: ClientOrderKey)
    ensures var after, claimed := RecoverClaimed(db, db.outbox.Keys), k in db.outbox && db.outbox[k].status == OutboxStatus.Claimed;
            && (k in after.outbox <==> k in db.outbox) && (k in after.intents <==> k in db.intents)
            && (k in db.outbox ==> after.outbox[k] == if claimed then db.outbox[k].(status := OutboxStatus.Unknown) else db.outbox[k])
            && (k in db.intents ==>
                  after.intents[k] ==
                  if claimed && Carries(db, k)
                  then db.intents[k].(status := SubmissionUnknown, version := db.intents[k].version + 1) else db.intents[k])
            && (claimed ==> OrderNote(db.outbox[k].intent.id, SubmissionUnknownNote(WRITER_RECOVERY)) in after.notes)
            && after == db.(outbox := after.outbox, intents := after.intents, notes := after.notes)
  {
  }

  predicate IsUnknown(db: Tables, k: ClientOrderKey) { k in db.outbox && db.outbox[k].status == OutboxStatus.Unknown }

  /** An unknown command whose order the broker has, exactly: it was delivered, and an intent that is still unknown is
      acknowledged under the broker's number. */
  lemma ResolveExactly(db: Tables, k: ClientOrderKey, brokerOrderId: nat)
    ensures var after := ResolveUnknown(db, k, brokerOrderId);
            && (!IsUnknown(db, k) ==> after == db)
            && (IsUnknown(db, k) ==>
                  && after.outbox == db.outbox[k := db.outbox[k].(status := OutboxStatus.Delivered)]
                  && after.notes == db.notes + {OrderNote(db.outbox[k].intent.id, BrokerOrderDiscovered(brokerOrderId))}
                  && after == db.(outbox := after.outbox, intents := after.intents, notes := after.notes)
                  && (if Carries(db, k) && db.intents[k].status == SubmissionUnknown
                      then after.intents == db.intents[k := db.intents[k].(
                             status := Acknowledged, brokerOrderId := Some(brokerOrderId), version := db.intents[k].version + 1)]
                      else after.intents == db.intents))
  {
  }

  /** An unknown command whose order the broker does not have, exactly: refused if and only if it was claimed no earlier
      than the snapshot; otherwise it waits again as if it had never been claimed. */
  lemma RequeueExactly(db: Tables, k: ClientOrderKey, asOf: Time)
    ensures var r := RequeueUnknown(db, k, asOf);
            && (r.result.Err? <==> IsUnknown(db, k) && db.outbox[k].claimedAt.Some? && asOf <= db.outbox[k].claimedAt.value)
            && (r.result.Err? ==> r == Outcome(db, Err(SnapshotNotNewer)))
            && (!IsUnknown(db, k) ==> r == Outcome(db, Ok(false)))
            && (IsUnknown(db, k) && r.result.Ok? ==>
                  r.result == Ok(true)
                  && Leaves(r.db, db, k, db.outbox[k].(status := OutboxStatus.Pending, fencingToken := None, claimedAt := None),
                             Some(Outboxed), RequeuedAfterBrokerAbsence(asOf)))
  {
  }

  /** A delivered cancel, exactly: only the command changes. */
  lemma CancelDeliveredExactly(db: Tables, k: ClientOrderKey)
    ensures k in db.cancels ==>
              MarkCancelDelivered(db, k) == db.(cancels := db.cancels[k := db.cancels[k].(status := OutboxStatus.Delivered)])
    ensures k !in db.cancels ==> MarkCancelDelivered(db, k) == db
  {
  }

  /** An unanswered cancel, exactly: command and intent become unknown. */
  lemma CancelUnknownExactly(db: Tables, k: ClientOrderKey, reason: Name)
    ensures var r := MarkCancelUnknown(db, k, reason);
            && (k !in db.cancels ==> r == Outcome(db, Err(UnknownCommand)))
            && (k in db.cancels ==>
                  var id, after := db.cancels[k].intentId, r.db;
                  && r.result == Ok(()) && after.cancels == db.cancels[k := db.cancels[k].(status := OutboxStatus.Unknown)]
                  && after.notes == db.notes + {OrderNote(id, CancelUnknownNote(reason))}
                  && after == db.(cancels := after.cancels, intents := after.intents, notes := after.notes)
                  && (if id.key in db.intents && db.intents[id.key].intent.id == id
                      then after.intents ==
                           db.intents[id.key := db.intents[id.key].(status := CancelUnknown, version := db.intents[id.key].version + 1)]
                      else after.intents == db.intents))
  {
  }

  /* ---------- Queueing and staging ---------- */

  /** What queueing writes: a command that is not there is appended and waits, and an intent that is approved or awaits
      approval is queued. */
  predicate Queues(after: Tables, db: Tables, intent: ExecutionIntent) {
    var k := intent.Key();
    && (k in db.outbox ==> after.outbox == db.outbox && after.outboxOrder == db.outboxOrder)
    && (k !in db.outbox ==>
          after.outbox == db.outbox[k := OutboxRow(intent, OutboxStatus.Pending, None, None)] && after.outboxOrder == db.outboxOrder + [k])
    && (if k in db.intents && db.intents[k].intent.id == intent.id && db.intents[k].status in {Approved, ApprovalPending}
        then after.intents == db.intents[k := db.intents[k].(status := Outboxed, version := db.intents[k].version + 1)]
        else after.intents == db.intents)
    && after == db.(outbox := after.outbox, outboxOrder := after.outboxOrder, intents := after.intents)
  }

  lemma QueueExactly(db: Tables, intent: ExecutionIntent)
    requires Enqueue(db, intent).Ok?
    ensures Queues(Enqueue(db, intent).value, db, intent)
  {
  }

  /** The rows of a staged decision: the capsule; the reservation unless the decision has one; and the intent, with nothing
      filled, unless its key, its decision or its reservation is taken. */
  predicate Inserts(after: Tables, db: Tables, capsule: DecisionCapsule, reservation: RiskReservation, intent: ExecutionIntent) {
    && after.capsules == db.capsules[capsule.decisionId := capsule]
    && (if exists id :: id in db.reservations && id.decisionId == reservation.id.decisionId
        then after.reservations == db.reservations
        else after.reservations == db.reservations[reservation.id := ReservationRow(reservation, reservation.status, reservation.quantityConsumed)])
    && (if exists other :: other in db.intents && Occupied(other, db.intents[other].intent.id.reservationId, intent.id)
        then after.intents == db.intents
        else after.intents == db.intents[intent.Key() := IntentRow(intent, intent.status, 0, None, 0, 1)])
    && after == db.(capsules := after.capsules, reservations := after.reservations, intents := after.intents)
  }

  lemma PairExactly(db: Tables, capsule: DecisionCapsule, reservation: RiskReservation, intent: ExecutionIntent)
    ensures Inserts(WithPair(db, capsule, reservation, intent), db, capsule, reservation, intent)
  {
  }

  /** A row that keeps another intent out. */
  predicate Occupied(other: ClientOrderKey, reservationId: ReservationId, id: IntentId) {
    other == id.key || other.decisionId == id.key.decisionId || reservationId == id.reservationId
  }

  /** What one reservation holds of its account. */
  function HeldBy(row: ReservationRow, account: Account): int {
    if row.reservation.accountId == account && row.status in {Active, PartiallyConsumed, ReconciliationHold} then row.reservation.notional else 0
  }

  /** What an account holds, exactly: nothing without reservations, and one more adds its notional if it is active, consumed
      in part or kept by a reconciliation. */
  lemma HeldExactly(rows: map<ReservationId, ReservationRow>, id: ReservationId, row: ReservationRow, account: Account)
    requires id !in rows
    ensures HeldNotional(map[], account) == 0
    ensures HeldNotional(rows[id := row], account) == HeldNotional(rows, account) + HeldBy(row, account)
  {
    var after := rows[id := row];
    assert after.Keys == rows.Keys + {id};
    SumInsert(rows.Keys, HeldWeight(after, account), id);
    SumCongruence(rows.Keys, HeldWeight(after, account), HeldWeight(rows, account));
  }
}

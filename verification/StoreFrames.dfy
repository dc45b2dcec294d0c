/** Which tables each transaction writes. Together with the frames of the store's methods these say that the
    whole state after a method is the one its transaction function gives. */
module StoreFrames {
  import opened ControlModels
  import opened ControlTables
  import opened FreezeGate

  lemma TakeWrites(db: Tables, k: ClientOrderKey, verdict: ArmVerdict, token: nat, at: Time)
    requires Claimable(db, k) && (verdict.ArmAdmits? ==> verdict.index < |ArmsOf(db, k)|)
    ensures var taken := TakeCommand(db, k, verdict, token, at);
            taken == db.(outbox := taken.outbox, intents := taken.intents, arms := taken.arms)
    ensures var expired := ExpireCommand(db, k, at);
            expired == db.(outbox := expired.outbox, intents := expired.intents, reservations := expired.reservations, notes := expired.notes)
  {
    hide Bump, WithArmStatus;
  }

  lemma ClaimWrites(db: Tables, lease: ExecutionLease, latest: Option<Digest>, at: Time)
    ensures var after := ClaimNext(db, lease, latest, at).db;
            after == db.(outbox := after.outbox, intents := after.intents, reservations := after.reservations, arms := after.arms, notes := after.notes)
  {
    hide FirstClaimable, JudgeArm, LeaseCurrent, TakeCommand, ExpireCommand, WithArmStatus;
    var found := FirstClaimable(db, db.outboxOrder);
    if !db.gate.frozen && LeaseCurrent(db, lease, at) && found.Some? {
      var k := found.value;
      var verdict := JudgeArm(db, k, latest, at);
      if verdict.ArmRefuses? {
        assert ClaimNext(db, lease, latest, at).db == db.(arms := db.arms[k := WithArmStatus(ArmsOf(db, k), verdict.index, ArmExpiredStatus)]);
      } else {
        TakeWrites(db, k, verdict, lease.fencingToken, at);
      }
    }
  }

  lemma MarkUnknownWrites(db: Tables, id: IntentId, reason: Name)
    ensures var after := MarkSubmissionUnknown(db, id, reason).db;
            after == db.(outbox := after.outbox, intents := after.intents, notes := after.notes)
  {
    hide Bump;
  }

  lemma MarkDeliveredWrites(db: Tables, id: IntentId)
    ensures MarkDelivered(db, id) == db.(outbox := MarkDelivered(db, id).outbox)
  {
  }

  lemma RecoverWrites(db: Tables, keys: set<ClientOrderKey>)
    ensures var after := RecoverClaimed(db, keys);
            after == db.(outbox := after.outbox, intents := after.intents, notes := after.notes)
  {
    hide Bump;
  }

  lemma ResolveWrites(db: Tables, k: ClientOrderKey, brokerOrderId: nat)
    ensures var after := ResolveUnknown(db, k, brokerOrderId);
            after == db.(outbox := after.outbox, intents := after.intents, notes := after.notes)
  {
    hide Bump;
  }

  lemma RequeueWrites(db: Tables, k: ClientOrderKey, asOf: Time)
    ensures var after := RequeueUnknown(db, k, asOf).db;
            after == db.(outbox := after.outbox, intents := after.intents, notes := after.notes)
  {
    hide Bump;
  }

  lemma ClaimCancelWrites(db: Tables, lease: ExecutionLease, at: Time)
    ensures var after := ClaimNextCancel(db, lease, at).db; after == db.(cancels := after.cancels)
  {
    hide FirstPendingCancel, LeaseCurrent;
    var found := FirstPendingCancel(db, db.cancelOrder);
    if LeaseCurrent(db, lease, at) && found.Some? {
      var row := db.cancels[found.value].(status := Claimed, fencingToken := Some(lease.fencingToken));
      assert ClaimNextCancel(db, lease, at).db == db.(cancels := db.cancels[found.value := row]);
    }
  }

  lemma MarkCancelUnknownWrites(db: Tables, k: ClientOrderKey, reason: Name)
    ensures var after := MarkCancelUnknown(db, k, reason).db;
            after == db.(cancels := after.cancels, intents := after.intents, notes := after.notes)
  {
    hide Bump;
  }

  lemma MarkCancelDeliveredWrites(db: Tables, k: ClientOrderKey)
    ensures MarkCancelDelivered(db, k) == db.(cancels := MarkCancelDelivered(db, k).cancels)
  {
  }

  lemma IngestWrites(db: Tables, e: BrokerEvent)
    ensures var after := Ingest(db, e).db;
            after == db.(gate := after.gate, inbox := after.inbox, intents := after.intents, reservations := after.reservations,
                         positions := after.positions, cashDelta := after.cashDelta, commissions := after.commissions, applied := after.applied)
  {
    hide OpenTicket, CashEffect, UpdatedReservation, AppliedRow;
    if e.id !in db.inbox && e.Key() !in db.intents {
      var r := OpenTicket(db.gate, BrokerOnlyOrderOrEvent, Legacy, Blocking, e.receivedAt, true);
      assert r.Err? || Ingest(db, e).db == db.(gate := r.value, inbox := db.inbox[e.id := Orphan]);
    }
  }

  lemma BaselineWrites(db: Tables, snapshot: BrokerSnapshot)
    ensures SetBaseline(db, snapshot) == db.(baseline := SetBaseline(db, snapshot).baseline)
  {
  }

  lemma ApproveWrites(db: Tables, id: IntentId, actor: Name, at: Time)
    ensures var after := Approve(db, id, actor, at).db; after == db.(approvals := after.approvals, intents := after.intents)
  {
    hide Bump;
  }

  lemma CancelWrites(db: Tables, id: IntentId, actor: Name)
    ensures var after := RequestCancel(db, id, actor).db;
            after == db.(cancels := after.cancels, cancelOrder := after.cancelOrder, intents := after.intents, notes := after.notes,
                         outbox := after.outbox, reservations := after.reservations)
  {
    hide Bump, UpdatedReservation;
  }

  lemma RecordWrites(db: Tables, quote: QuoteSnapshot, certificate: Digest, row: AuthorityRow, status: RunStatus)
    ensures RecordQuote(db, quote) == db.(quotes := RecordQuote(db, quote).quotes)
    ensures var after := RecordAuthority(db, certificate, row, status).db; after == db.(authorities := after.authorities)
  {
  }

  lemma LeaseWrites(db: Tables, name: Name, owner: Name, at: Time, ttl: int)
    ensures var after := AcquireLease(db, name, owner, at, ttl).db; after == db.(leases := after.leases)
  {
  }
}

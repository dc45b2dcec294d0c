/** One more order, one more key: how the parts of a reconciliation grow step by step towards those of
    ReconciliationModel. */
module ReconcileSteps {
  import opened BrokerModel
  import opened ControlModels
  import opened ControlTables
  import opened Convergence
  import opened ExecutionStore
  import opened FreezeGate
  import opened Ledger
  import opened ReconciliationModel
  import opened StoreFrames
  import opened StoreInvariants
  import opened Sums

  /* ---------- One more order, one more key ---------- */

  function Restrict<V>(m: map<ClientOrderKey, V>, keys: set<ClientOrderKey>): map<ClientOrderKey, V> {
    map k | k in m && k in keys :: m[k]
  }

  /** An error ends the ingestion. */
  lemma {:induction false} IngestKnownStops(db: Tables, events: seq<BrokerEvent>, n: nat)
    requires n <= |events| && IngestKnown(db, events[..n]).result.Err?
    ensures IngestKnown(db, events) == IngestKnown(db, events[..n])
    decreases |events|
  {
    hide Ingest;
    if n < |events| {
      assert events[..|events| - 1][..n] == events[..n];
      IngestKnownStops(db, events[..|events| - 1], n);
    } else {
      assert events[..n] == events;
    }
  }

  lemma IngestKnownMore(db: Tables, events: seq<BrokerEvent>, i: nat)
    requires i < |events|
    ensures var before := IngestKnown(db, events[..i]);
            IngestKnown(db, events[..i + 1]) ==
            if before.result.Err? || events[i].Key() !in before.db.intents then before
            else
              var r := Ingest(before.db, events[i]);
              Outcome(r.db, if r.result.Ok? then Ok(()) else Err(r.result.error))
  {
    hide Ingest;
    assert events[..i + 1][..i] == events[..i];
  }

  /** Ingesting an event of a known order leaves everything but the books alone. */
  lemma KnownFrame(db: Tables, e: BrokerEvent)
    requires e.Key() in db.intents
    ensures SameFrame(db, Ingest(db, e).db)
  {
    hide SameFrame;
    if e.IsFill() ==> e.id.fillPrice.Some? {
      IngestOneFrame(db, e);
    } else {
      SameFrameReflexive(db);
    }
  }

  lemma ResolveAllWrites(db: Tables, orders: map<ClientOrderKey, BrokerOrderTruth>)
    ensures var after := ResolveAll(db, orders); after == db.(outbox := after.outbox, intents := after.intents, notes := after.notes)
  {
    hide Resolves, Joined, Bump;
  }

  lemma RequeueAllWrites(db: Tables, keys: set<ClientOrderKey>, asOf: Time)
    ensures var after := RequeueAll(db, keys, asOf); after == db.(outbox := after.outbox, intents := after.intents, notes := after.notes)
  {
    hide Joined, Bump;
  }

  lemma SameTables(a: Tables, b: Tables)
    requires a == b.(outbox := a.outbox, intents := a.intents, notes := a.notes)
    requires a.outbox == b.outbox && a.intents == b.intents && a.notes == b.notes
    ensures a == b
  {
  }

  lemma NothingOutbox(db: Tables)
    ensures ResolveAll(db, map[]).outbox == db.outbox
  {
    NoneResolves(db);
    hide Resolves, Joined, Bump, Unresolved;
  }

  lemma NothingIntents(db: Tables)
    ensures ResolveAll(db, map[]).intents == db.intents
  {
    NoneResolves(db);
    hide Resolves, Joined, Bump, Unresolved;
  }

  lemma NothingNotes(db: Tables)
    ensures ResolveAll(db, map[]).notes == db.notes
  {
    NoneResolves(db);
    hide Resolves, Joined, Bump, Unresolved;
  }

  lemma ResolveNothing(db: Tables)
    ensures ResolveAll(db, map[]) == db
  {
    hide ResolveAll;
    ResolveAllWrites(db, map[]);
    NothingOutbox(db);
    NothingIntents(db);
    NothingNotes(db);
    SameTables(ResolveAll(db, map[]), db);
  }

  lemma NoneResolves(db: Tables)
    ensures forall k :: !Resolves(db, map[], k)
  {
  }

  lemma ResolvesMore(db: Tables, orders: map<ClientOrderKey, BrokerOrderTruth>, done: set<ClientOrderKey>, k: ClientOrderKey, j: ClientOrderKey)
    requires k in orders
    ensures Resolves(db, Restrict(orders, done + {k}), j) <==>
            Resolves(db, Restrict(orders, done), j) || (j == k && k in db.intents && Unresolved(db, k))
  {
  }

  lemma ResolveOutboxMore(db: Tables, orders: map<ClientOrderKey, BrokerOrderTruth>, done: set<ClientOrderKey>, k: ClientOrderKey)
    requires k in orders && k !in done
    ensures var before, after := ResolveAll(db, Restrict(orders, done)), ResolveAll(db, Restrict(orders, done + {k}));
            && (Unresolved(before, k) <==> Unresolved(db, k))
            && after.outbox == if k in db.intents && Unresolved(db, k) then before.outbox[k := before.outbox[k].(status := OutboxStatus.Delivered)] else before.outbox
  {
    forall j
      ensures Resolves(db, Restrict(orders, done + {k}), j) <==>
              Resolves(db, Restrict(orders, done), j) || (j == k && k in db.intents && Unresolved(db, k))
    {
      ResolvesMore(db, orders, done, k, j);
    }
    assert !Resolves(db, Restrict(orders, done), k);
    hide Resolves, Joined, Bump, Restrict;
  }

  lemma ResolvedRow(db: Tables, orders: map<ClientOrderKey, BrokerOrderTruth>, j: ClientOrderKey)
    requires j in db.intents
    ensures var after := ResolveAll(db, orders).intents;
            && j in after
            && after[j] == if Resolves(db, orders, j) && Joined(db, j) && db.intents[j].status == SubmissionUnknown
                           then Bump(db.intents[j], Acknowledged).(brokerOrderId := Some(orders[j].brokerOrderId)) else db.intents[j]
  {
    hide Bump, Joined;
  }

  lemma ResolvedKeys(db: Tables, orders: map<ClientOrderKey, BrokerOrderTruth>)
    ensures ResolveAll(db, orders).intents.Keys == db.intents.Keys
  {
    hide Bump, Joined, Resolves;
  }

  lemma ResolveIntentsMore(db: Tables, orders: map<ClientOrderKey, BrokerOrderTruth>, done: set<ClientOrderKey>, k: ClientOrderKey)
    requires k in orders && k !in done
    ensures var before, after := ResolveAll(db, Restrict(orders, done)), ResolveAll(db, Restrict(orders, done + {k}));
            && (k in before.intents <==> k in db.intents) && (k in db.intents ==> before.intents[k] == db.intents[k])
            && after.intents ==
               if k in db.intents && Unresolved(db, k) && Joined(db, k) && db.intents[k].status == SubmissionUnknown
               then before.intents[k := Bump(db.intents[k], Acknowledged).(brokerOrderId := Some(orders[k].brokerOrderId))] else before.intents
  {
    hide Joined, Bump, Unresolved, ResolveAll;
    ResolvedKeys(db, Restrict(orders, done));
    ResolvedKeys(db, Restrict(orders, done + {k}));
    forall j | j in db.intents
      ensures var before, after := ResolveAll(db, Restrict(orders, done)).intents, ResolveAll(db, Restrict(orders, done + {k})).intents;
              && j in before && j in after && (j == k ==> before[j] == db.intents[j])
              && after[j] == if j == k && Unresolved(db, k) && Joined(db, k) && db.intents[k].status == SubmissionUnknown
                             then Bump(db.intents[k], Acknowledged).(brokerOrderId := Some(orders[k].brokerOrderId)) else before[j]
    {
      ResolvedRow(db, Restrict(orders, done), j);
      ResolvedRow(db, Restrict(orders, done + {k}), j);
    }
  }

  lemma ResolvedNote(db: Tables, orders: map<ClientOrderKey, BrokerOrderTruth>, n: OrderNote)
    ensures n in ResolveAll(db, orders).notes <==>
            n in db.notes || exists j :: j in db.outbox && Resolves(db, orders, j)
                                         && n == OrderNote(db.outbox[j].intent.id, BrokerOrderDiscovered(orders[j].brokerOrderId))
  {
    hide Bump, Joined, Resolves;
  }

  lemma ResolveNotesMore(db: Tables, orders: map<ClientOrderKey, BrokerOrderTruth>, done: set<ClientOrderKey>, k: ClientOrderKey)
    requires k in orders && k !in done
    ensures var before, after := ResolveAll(db, Restrict(orders, done)), ResolveAll(db, Restrict(orders, done + {k}));
            after.notes ==
            if k in db.intents && Unresolved(db, k)
            then before.notes + {OrderNote(db.outbox[k].intent.id, BrokerOrderDiscovered(orders[k].brokerOrderId))} else before.notes
  {
    hide ResolveAll, Unresolved;
    var fewer, more := Restrict(orders, done), Restrict(orders, done + {k});
    var before, after := ResolveAll(db, fewer), ResolveAll(db, more);
    var extra := k in db.intents && Unresolved(db, k);
    if extra { UnresolvedHasRow(db, k); }
    forall n
      ensures n in after.notes <==>
              n in before.notes || (extra && n == OrderNote(db.outbox[k].intent.id, BrokerOrderDiscovered(orders[k].brokerOrderId)))
    {
      ResolvedNote(db, fewer, n);
      ResolvedNote(db, more, n);
      forall j
        ensures Resolves(db, more, j) <==> Resolves(db, fewer, j) || (j == k && extra)
      {
        ResolvesMore(db, orders, done, k, j);
      }
    }
  }

  lemma UnresolvedHasRow(db: Tables, k: ClientOrderKey)
    requires Unresolved(db, k)
    ensures k in db.outbox
  {
  }

  /** Resolving one more order on top of those resolved before. */
  lemma ResolveOneMore(db: Tables, orders: map<ClientOrderKey, BrokerOrderTruth>, done: set<ClientOrderKey>, k: ClientOrderKey)
    requires k in orders && k !in done
    ensures var before := ResolveAll(db, Restrict(orders, done));
            ResolveAll(db, Restrict(orders, done + {k})) ==
            if k in db.intents then ResolveUnknown(before, k, orders[k].brokerOrderId) else before
  {
    var before := ResolveAll(db, Restrict(orders, done));
    var after := ResolveAll(db, Restrict(orders, done + {k}));
    ResolveOutboxMore(db, orders, done, k);
    ResolveIntentsMore(db, orders, done, k);
    ResolveNotesMore(db, orders, done, k);
    ResolveAllWrites(db, Restrict(orders, done));
    ResolveAllWrites(db, Restrict(orders, done + {k}));
    ResolveWrites(before, k, orders[k].brokerOrderId);
    ResolveUnknownIs(before, k, orders[k].brokerOrderId);
    KeptRow(db, orders, done, k);
    hide ResolveAll, ResolveUnknown, Bump, Restrict;
    var step := if k in db.intents then ResolveUnknown(before, k, orders[k].brokerOrderId) else before;
    SameTables(after, step);
  }

  /** A key that has not been resolved yet has its old command row. */
  lemma KeptRow(db: Tables, orders: map<ClientOrderKey, BrokerOrderTruth>, done: set<ClientOrderKey>, k: ClientOrderKey)
    requires k !in done
    ensures var before := ResolveAll(db, Restrict(orders, done));
            && (k in before.outbox <==> k in db.outbox) && (k in db.outbox ==> before.outbox[k] == db.outbox[k])
            && (Joined(before, k) <==> Joined(db, k))
  {
    hide Bump;
  }

  lemma ResolveUnknownIs(db: Tables, k: ClientOrderKey, brokerOrderId: nat)
    ensures var after := ResolveUnknown(db, k, brokerOrderId);
            if !Unresolved(db, k) then after == db
            else
              && after.outbox == db.outbox[k := db.outbox[k].(status := OutboxStatus.Delivered)]
              && after.intents == (if Joined(db, k) && db.intents[k].status == SubmissionUnknown
                                   then db.intents[k := Bump(db.intents[k], Acknowledged).(brokerOrderId := Some(brokerOrderId))] else db.intents)
              && after.notes == db.notes + {OrderNote(db.outbox[k].intent.id, BrokerOrderDiscovered(brokerOrderId))}
  {
    hide Bump;
  }

  /* ---------- Requeueing one more key ---------- */

  lemma RequeuedRow(db: Tables, keys: set<ClientOrderKey>, asOf: Time, j: ClientOrderKey)
    requires j in db.intents
    ensures var after := RequeueAll(db, keys, asOf).intents;
            j in after && after[j] == if j in keys && Unresolved(db, j) && Joined(db, j) then Bump(db.intents[j], Outboxed) else db.intents[j]
  {
    hide Bump, Joined, Unresolved;
  }

  lemma RequeuedKeys(db: Tables, keys: set<ClientOrderKey>, asOf: Time)
    ensures RequeueAll(db, keys, asOf).intents.Keys == db.intents.Keys && RequeueAll(db, keys, asOf).outbox.Keys == db.outbox.Keys
  {
    hide Bump, Joined, Unresolved;
  }

  lemma RequeuedOutboxRow(db: Tables, keys: set<ClientOrderKey>, asOf: Time, j: ClientOrderKey)
    requires j in db.outbox
    ensures var after := RequeueAll(db, keys, asOf).outbox;
            && j in after
            && after[j] == if j in keys && Unresolved(db, j) then db.outbox[j].(status := Pending, fencingToken := None, claimedAt := None) else db.outbox[j]
  {
    hide Bump, Joined, Unresolved;
  }

  lemma RequeuedNote(db: Tables, keys: set<ClientOrderKey>, asOf: Time, n: OrderNote)
    ensures n in RequeueAll(db, keys, asOf).notes <==>
            n in db.notes || exists j :: j in db.outbox && j in keys && Unresolved(db, j)
                                         && n == OrderNote(db.outbox[j].intent.id, RequeuedAfterBrokerAbsence(asOf))
  {
    hide Bump, Joined, Unresolved;
  }

  lemma RequeueNothing(db: Tables, asOf: Time)
    ensures RequeueAll(db, {}, asOf) == db
  {
    hide RequeueAll, Joined, Unresolved, Bump;
    RequeueAllWrites(db, {}, asOf);
    RequeuedKeys(db, {}, asOf);
    forall j | j in db.outbox
      ensures j in RequeueAll(db, {}, asOf).outbox && RequeueAll(db, {}, asOf).outbox[j] == db.outbox[j]
    {
      RequeuedOutboxRow(db, {}, asOf, j);
    }
    forall j | j in db.intents
      ensures j in RequeueAll(db, {}, asOf).intents && RequeueAll(db, {}, asOf).intents[j] == db.intents[j]
    {
      RequeuedRow(db, {}, asOf, j);
    }
    forall n
      ensures n in RequeueAll(db, {}, asOf).notes <==> n in db.notes
    {
      RequeuedNote(db, {}, asOf, n);
    }
    SameTables(RequeueAll(db, {}, asOf), db);
  }

  lemma RequeueUnknownIs(db: Tables, k: ClientOrderKey, asOf: Time)
    requires !TooOld(db, k, asOf)
    ensures var r := RequeueUnknown(db, k, asOf);
            && r.result.Ok?
            && if !Unresolved(db, k) then r.db == db
               else
                 && r.db.outbox == db.outbox[k := db.outbox[k].(status := Pending, fencingToken := None, claimedAt := None)]
                 && r.db.intents == (if Joined(db, k) then db.intents[k := Bump(db.intents[k], Outboxed)] else db.intents)
                 && r.db.notes == db.notes + {OrderNote(db.outbox[k].intent.id, RequeuedAfterBrokerAbsence(asOf))}
  {
    hide Bump;
  }

  lemma RequeueOutboxMore(db: Tables, keys: set<ClientOrderKey>, k: ClientOrderKey, asOf: Time)
    requires k !in keys
    ensures var before, after := RequeueAll(db, keys, asOf).outbox, RequeueAll(db, keys + {k}, asOf).outbox;
            && (k in before <==> k in db.outbox) && (k in db.outbox ==> before[k] == db.outbox[k])
            && after == if k in db.outbox && Unresolved(db, k) then before[k := db.outbox[k].(status := Pending, fencingToken := None, claimedAt := None)] else before
  {
    hide RequeueAll, Joined, Unresolved, Bump;
    RequeuedKeys(db, keys, asOf);
    RequeuedKeys(db, keys + {k}, asOf);
    forall j | j in db.outbox
      ensures var before, after := RequeueAll(db, keys, asOf).outbox, RequeueAll(db, keys + {k}, asOf).outbox;
              && j in before && j in after && (j == k ==> before[j] == db.outbox[j])
              && after[j] == if j == k && Unresolved(db, k) then db.outbox[k].(status := Pending, fencingToken := None, claimedAt := None) else before[j]
    {
      RequeuedOutboxRow(db, keys, asOf, j);
      RequeuedOutboxRow(db, keys + {k}, asOf, j);
    }
  }

  lemma RequeueIntentsMore(db: Tables, keys: set<ClientOrderKey>, k: ClientOrderKey, asOf: Time)
    requires k !in keys
    ensures var before, after := RequeueAll(db, keys, asOf).intents, RequeueAll(db, keys + {k}, asOf).intents;
            && (k in before <==> k in db.intents) && (k in db.intents ==> before[k] == db.intents[k])
            && after == if k in db.intents && Unresolved(db, k) && Joined(db, k) then before[k := Bump(db.intents[k], Outboxed)] else before
  {
    hide RequeueAll, Joined, Unresolved, Bump;
    RequeuedKeys(db, keys, asOf);
    RequeuedKeys(db, keys + {k}, asOf);
    forall j | j in db.intents
      ensures var before, after := RequeueAll(db, keys, asOf).intents, RequeueAll(db, keys + {k}, asOf).intents;
              && j in before && j in after && (j == k ==> before[j] == db.intents[j])
              && after[j] == if j == k && Unresolved(db, k) && Joined(db, k) then Bump(db.intents[k], Outboxed) else before[j]
    {
      RequeuedRow(db, keys, asOf, j);
      RequeuedRow(db, keys + {k}, asOf, j);
    }
  }

  lemma RequeueNotesMore(db: Tables, keys: set<ClientOrderKey>, k: ClientOrderKey, asOf: Time)
    requires k in db.outbox && Unresolved(db, k)
    ensures RequeueAll(db, keys + {k}, asOf).notes ==
            RequeueAll(db, keys, asOf).notes + {OrderNote(db.outbox[k].intent.id, RequeuedAfterBrokerAbsence(asOf))}
  {
    hide RequeueAll, Unresolved;
    forall n
      ensures n in RequeueAll(db, keys + {k}, asOf).notes <==>
              n in RequeueAll(db, keys, asOf).notes || n == OrderNote(db.outbox[k].intent.id, RequeuedAfterBrokerAbsence(asOf))
    {
      RequeuedNote(db, keys, asOf, n);
      RequeuedNote(db, keys + {k}, asOf, n);
    }
  }

  lemma RequeueNotesSame(db: Tables, keys: set<ClientOrderKey>, k: ClientOrderKey, asOf: Time)
    requires !Unresolved(db, k)
    ensures RequeueAll(db, keys + {k}, asOf).notes == RequeueAll(db, keys, asOf).notes
  {
    hide RequeueAll, Unresolved;
    forall n
      ensures n in RequeueAll(db, keys + {k}, asOf).notes <==> n in RequeueAll(db, keys, asOf).notes
    {
      RequeuedNote(db, keys, asOf, n);
      RequeuedNote(db, keys + {k}, asOf, n);
    }
  }

  /** A key that has not been requeued yet has its old rows. */
  lemma RequeueKeepsRow(db: Tables, keys: set<ClientOrderKey>, k: ClientOrderKey, asOf: Time)
    requires k !in keys
    ensures var before := RequeueAll(db, keys, asOf);
            && (Unresolved(before, k) <==> Unresolved(db, k)) && (Joined(before, k) <==> Joined(db, k))
            && (TooOld(before, k, asOf) <==> TooOld(db, k, asOf))
            && (Unresolved(db, k) ==> k in before.outbox && k in db.outbox && before.outbox[k] == db.outbox[k])
            && (k in before.intents <==> k in db.intents) && (k in db.intents ==> before.intents[k] == db.intents[k])
  {
    RequeueOutboxMore(db, keys, k, asOf);
    RequeueIntentsMore(db, keys, k, asOf);
    hide RequeueAll, Bump;
  }

  /** Requeueing one more key on top of those requeued before. */
  lemma RequeueOneMore(db: Tables, keys: set<ClientOrderKey>, k: ClientOrderKey, asOf: Time)
    requires k !in keys
    ensures var before := RequeueAll(db, keys, asOf);
            && (TooOld(before, k, asOf) <==> TooOld(db, k, asOf))
            && (!TooOld(db, k, asOf) ==>
                  RequeueUnknown(before, k, asOf).result.Ok? && RequeueUnknown(before, k, asOf).db == RequeueAll(db, keys + {k}, asOf))
  {
    RequeueKeepsRow(db, keys, k, asOf);
    if !TooOld(db, k, asOf) { RequeueStep(db, keys, k, asOf); }
  }

  lemma RequeueStep(db: Tables, keys: set<ClientOrderKey>, k: ClientOrderKey, asOf: Time)
    requires k !in keys && !TooOld(db, k, asOf)
    ensures var before := RequeueAll(db, keys, asOf);
            RequeueUnknown(before, k, asOf).result.Ok? && RequeueUnknown(before, k, asOf).db == RequeueAll(db, keys + {k}, asOf)
  {
    hide RequeueAll, Bump, RequeueUnknown, TooOld, Unresolved, Joined;
    var before, after := RequeueAll(db, keys, asOf), RequeueAll(db, keys + {k}, asOf);
    RequeueKeepsRow(db, keys, k, asOf);
    RequeueUnknownIs(before, k, asOf);
    var step := RequeueUnknown(before, k, asOf).db;
    RequeueAllWrites(db, keys, asOf);
    RequeueAllWrites(db, keys + {k}, asOf);
    RequeueWrites(before, k, asOf);
    assert after.outbox == step.outbox by { RequeueOutboxMore(db, keys, k, asOf); JoinedHasRow(db, k); }
    assert after.intents == step.intents by { RequeueIntentsMore(db, keys, k, asOf); JoinedHasRow(db, k); }
    assert after.notes == step.notes by {
      if Unresolved(db, k) { RequeueNotesMore(db, keys, k, asOf); } else { RequeueNotesSame(db, keys, k, asOf); }
    }
    SameTables(after, step);
  }

  lemma JoinedHasRow(db: Tables, k: ClientOrderKey)
    ensures Joined(db, k) ==> k in db.intents
    ensures Unresolved(db, k) ==> k in db.outbox
  {
  }
}

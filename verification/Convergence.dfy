/** Reconciling against the current broker brings the store back to exact agreement. */
module Convergence {
  import opened BrokerModel
  import opened ControlModels
  import opened ControlTables
  import opened FreezeGate
  import opened Ledger
  import opened ProtectionLaws
  import opened ReconciliationModel
  import opened StoreInvariants
  import opened Sums

  /* ---------- How store and broker are linked in every reachable state ---------- */

  /** Every broker order comes from a staged intent, and the store has only applied broker events. */
  ghost predicate Linked(db: Tables, b: Broker) {
    && (forall k :: k in b.orders ==> k in db.intents && db.intents[k].intent == b.orders[k].intent)
    && db.applied <= EventSet(b.events)
    && (forall id :: id in db.inbox ==> db.inbox[id] == Applied)
  }

  /** A local status that claims a live broker order is backed by one, or by a command in flight. */
  predicate StatusBacked(db: Tables, orders: map<ClientOrderKey, BrokerOrder>, k: ClientOrderKey)
    requires k in db.intents
  {
    match db.intents[k].status
    case Acknowledged => k in orders
    case PartiallyFilled => k in orders
    case Submitting => k in orders || (Joined(db, k) && db.outbox[k].status == Claimed)
    case _ => true
  }

  predicate StatusesBacked(db: Tables, orders: map<ClientOrderKey, BrokerOrder>) {
    forall k :: k in db.intents ==> StatusBacked(db, orders, k)
  }

  /** Intents are never removed or replaced. */
  predicate KeepsIntents(before: map<ClientOrderKey, IntentRow>, after: map<ClientOrderKey, IntentRow>) {
    forall k :: k in before ==> k in after && after[k].intent == before[k].intent
  }

  /** The broker reports no accrued cash, so neither does a baseline. */
  predicate BaselineSound(db: Tables) { db.baseline.Some? ==> db.baseline.value.accruedCash == Some(0) }

  /** By how much the baseline misjudges the broker's cash; nothing while there is no baseline. */
  function Drift(db: Tables, startingCash: Money): int {
    if db.baseline.None? then 0 else db.baseline.value.cash - db.baseline.value.projectionCashDelta - startingCash
  }

  ghost predicate InStep(db: Tables, b: Broker, startingCash: Money) {
    && StoreInv(db) && BrokerInv(b, startingCash) && Linked(db, b) && StatusesBacked(db, b.orders)
    && BaselineSound(db)
  }

  /* ---------- Ingesting the whole event log ---------- */

  /** What ingesting broker events leaves alone. */
  predicate SameFrame(db: Tables, after: Tables) {
    && after.gate == db.gate && after.outbox == db.outbox && after.baseline == db.baseline
    && after.runs == db.runs && after.discrepancies == db.discrepancies
    && after.intents.Keys == db.intents.Keys
    && forall k :: k in db.intents ==> after.intents[k].intent == db.intents[k].intent
  }

  lemma IngestOneFrame(db: Tables, e: BrokerEvent)
    requires e.Key() in db.intents && (e.IsFill() ==> e.id.fillPrice.Some?)
    ensures var r := Ingest(db, e);
            && r.result.Ok? && SameFrame(db, r.db)
            && r.db.applied == (if e.id in db.inbox then db.applied else db.applied + {e})
            && r.db.inbox == (if e.id in db.inbox then db.inbox else db.inbox[e.id := Applied])
  {
    hide CashEffect, UpdatedReservation, AppliedRow;
    assert AppliedRow(db.intents[e.Key()], e).intent == db.intents[e.Key()].intent by { AppliedRowIntent(db.intents[e.Key()], e); }
  }

  lemma AppliedRowIntent(row: IntentRow, e: BrokerEvent)
    ensures AppliedRow(row, e).intent == row.intent
  {
  }

  /** Events already in the inbox are exactly those already applied, so broker events add just themselves,
      however many of them are ingested, in whatever order. */
  lemma {:induction false} IngestSome(db: Tables, b: Broker, startingCash: Money, events: seq<BrokerEvent>)
    requires StoreInv(db) && BrokerInv(b, startingCash) && Linked(db, b) && forall e :: e in events ==> e in b.events
    ensures var r := IngestKnown(db, events);
            && r.result.Ok? && StoreInv(r.db) && Linked(r.db, b) && SameFrame(db, r.db)
            && r.db.applied == db.applied + EventSet(events)
  {
    hide StoreInv, BrokerInv, Ingest, SameFrame, Linked;
    if events == [] {
      assert EventSet(events) == {};
      SameFrameReflexive(db);
    } else {
      var n := |events| - 1;
      IngestSome(db, b, startingCash, events[..n]);
      var mid := IngestKnown(db, events[..n]).db;
      var e := events[n];
      assert EventSet(events) == EventSet(events[..n]) + {e};
      IngestNext(mid, b, startingCash, e);
      SameFrameTransitive(db, mid, Ingest(mid, e).db);
    }
  }

  lemma SameFrameReflexive(db: Tables)
    ensures SameFrame(db, db)
  {
  }

  lemma SameFrameTransitive(a: Tables, b: Tables, c: Tables)
    requires SameFrame(a, b) && SameFrame(b, c)
    ensures SameFrame(a, c)
  {
  }

  /** One broker event that the store may or may not have seen. */
  lemma IngestNext(db: Tables, b: Broker, startingCash: Money, e: BrokerEvent)
    requires StoreInv(db) && BrokerInv(b, startingCash) && Linked(db, b) && e in b.events
    ensures e.Key() in db.intents
    ensures var r := Ingest(db, e);
            && r.result.Ok? && StoreInv(r.db) && Linked(r.db, b) && SameFrame(db, r.db)
            && r.db.applied == db.applied + {e}
  {
    hide IntentsMatch, ReservationsMatch, BooksMatch, GateInv, KeysListed, BooksBalance, Ingest, FilledQuantity;
    hide SameFrame, StoreInv;
    assert e in EventSet(b.events) && e.Key() in b.orders && WellFormedEvent(e);
    IngestKeepsInv(db, e);
    IngestOneFrame(db, e);
    var r := Ingest(db, e);
    if e.id in db.inbox {
      SeenEventIsApplied(db, b, startingCash, e);
    }
    LinkedStep(db, r.db, b, e);
  }

  lemma LinkedStep(db: Tables, after: Tables, b: Broker, e: BrokerEvent)
    requires Linked(db, b) && SameFrame(db, after) && e in b.events && after.applied == db.applied + {e}
    requires after.inbox == (if e.id in db.inbox then db.inbox else db.inbox[e.id := Applied])
    ensures Linked(after, b)
  {
  }

  /** Ids name broker events, so an event whose id is in the inbox is the very event that was applied. */
  lemma SeenEventIsApplied(db: Tables, b: Broker, startingCash: Money, e: BrokerEvent)
    requires StoreInv(db) && BrokerInv(b, startingCash) && Linked(db, b) && e in b.events && e.id in db.inbox
    ensures e in db.applied
  {
    hide IntentsMatch, ReservationsMatch, BooksMatch, GateInv, KeysListed, BooksBalance, OrdersMatch;
    hide CancelsFiled, OutboxFiled, DecisionsUnique;
    var f :| f in db.applied && f.id == e.id;
    assert f in b.events;
    IdsNameEvents(b, e, f);
  }

  /* ---------- Agreement of fills, positions, protection and cash ---------- */

  /** Once every broker event is applied, each intent has filled exactly what its broker order has. */
  lemma FillsAgree(db: Tables, b: Broker, startingCash: Money, k: ClientOrderKey)
    requires StoreInv(db) && BrokerInv(b, startingCash) && db.applied == EventSet(b.events) && k in db.intents
    ensures db.intents[k].filled == (if k in b.orders then b.orders[k].filled else 0) == FilledQuantity(EventSet(b.events), k)
  {
    hide ReservationsMatch, BooksMatch, GateInv, InboxMatches, FilledQuantity, Acceptances, BooksBalance;
    hide DecisionsUnique;
    assert IntentMatches(k, db.intents[k], db.applied);
    if k in b.orders {
      assert OrderMatches(k, b.orders[k], EventSet(b.events));
    } else {
      UnseenKey(EventSet(b.events), k);
    }
  }

  /** The position the intents add up to is the broker's position. */
  lemma PositionsAgree(db: Tables, b: Broker, startingCash: Money, i: Instrument)
    requires StoreInv(db) && BrokerInv(b, startingCash) && Linked(db, b) && db.applied == EventSet(b.events)
    ensures LocalPosition(db.intents, i) == Lookup(b.positions, i, 0)
  {
    hide StoreInv, FilledQuantity, NetPosition;
    var events := EventSet(b.events);
    forall k | k in db.intents
      ensures OrderWeight(FilledOf(db.intents), i)(k) == OrderWeight(FilledBy(events), i)(k)
    {
      FillsAgree(db, b, startingCash, k);
    }
    SumCongruence(db.intents.Keys, OrderWeight(FilledOf(db.intents), i), OrderWeight(FilledBy(events), i));
    EventsHaveIntents(db, b, startingCash);
    PositionByOrder(events, db.intents.Keys, i);
    BookLookup(events, i);
  }

  lemma EventsHaveIntents(db: Tables, b: Broker, startingCash: Money)
    requires BrokerInv(b, startingCash) && Linked(db, b)
    ensures forall e :: e in EventSet(b.events) ==>
              e.Key() in db.intents && e.Key() in b.orders && PlainEvent(e) && (e.IsFill() ==> e.id.fillPrice.Some?)
  {
    hide OrderMatches, BooksBalance;
    forall e | e in EventSet(b.events)
      ensures e.Key() in db.intents && e.Key() in b.orders && PlainEvent(e) && (e.IsFill() ==> e.id.fillPrice.Some?)
    {
      assert WellFormedEvent(e) && e.Key() in b.orders;
    }
  }

  /* ---------- What the run reads off the snapshot ---------- */

  lemma {:induction false} TruthsByKey(orders: map<ClientOrderKey, BrokerOrder>, keys: seq<ClientOrderKey>)
    requires forall k :: k in keys ==> k in orders
    ensures var truths := ByKey(OrderTruths(orders, keys));
            && (forall k :: k in truths <==> k in keys)
            && (forall k :: k in keys ==> truths[k] == OrderTruth(k, orders[k]))
  {
    if keys != [] {
      var rest := keys[..|keys| - 1];
      TruthsByKey(orders, rest);
      assert OrderTruths(orders, keys)[..|keys| - 1] == OrderTruths(orders, rest);
    }
  }

  /** The broker's orders as the run sees them. */
  lemma SnapshotOrders(b: Broker, startingCash: Money, asOf: Time)
    requires BrokerInv(b, startingCash)
    ensures var truths := ByKey(Snapshot(b, asOf).orders);
            truths.Keys == b.orders.Keys && forall k :: k in b.orders ==> truths[k] == OrderTruth(k, b.orders[k])
  {
    hide Protections, ProtectionOrders, OrdersMatch, BooksBalance, SequencesIncrease, OrderTruth, OrderTruths, ByKey;
    TruthsByKey(b.orders, b.orderKeys);
  }

  /** Only live broker orders are locally in flight or working. */
  predicate Grounded(intents: map<ClientOrderKey, IntentRow>, orders: map<ClientOrderKey, BrokerOrder>) {
    forall k :: k in intents && intents[k].status in {Acknowledged, PartiallyFilled, Submitting} ==> k in orders
  }

  lemma GroundedIsBacked(db: Tables, orders: map<ClientOrderKey, BrokerOrder>)
    requires Grounded(db.intents, orders)
    ensures StatusesBacked(db, orders)
  {
  }

  lemma RecoverGrounds(db: Tables, orders: map<ClientOrderKey, BrokerOrder>)
    requires StatusesBacked(db, orders)
    ensures Grounded(RecoverClaimed(db, db.outbox.Keys).intents, orders)
  {
    var after := RecoverClaimed(db, db.outbox.Keys);
    forall k | k in after.intents && after.intents[k].status in {Acknowledged, PartiallyFilled, Submitting}
      ensures k in orders
    {
      assert StatusBacked(db, orders, k);
    }
  }

  lemma {:induction false} IngestGrounds(db: Tables, b: Broker, startingCash: Money, events: seq<BrokerEvent>)
    requires StoreInv(db) && BrokerInv(b, startingCash) && Linked(db, b) && Grounded(db.intents, b.orders)
    requires forall e :: e in events ==> e in b.events
    ensures Grounded(IngestKnown(db, events).db.intents, b.orders)
  {
    hide StoreInv, BrokerInv, Ingest, Linked, Grounded, SameFrame;
    if events != [] {
      var n := |events| - 1;
      IngestGrounds(db, b, startingCash, events[..n]);
      IngestSome(db, b, startingCash, events[..n]);
      var mid := IngestKnown(db, events[..n]).db;
      EventsHaveIntents(mid, b, startingCash);
      assert events[n] in EventSet(b.events);
      IngestOneGrounds(mid, events[n], b.orders);
    }
  }

  /** An event rewrites at most the row of its own intent. */
  lemma IngestOneIntents(db: Tables, e: BrokerEvent)
    requires e.Key() in db.intents && (e.IsFill() ==> e.id.fillPrice.Some?)
    ensures Ingest(db, e).db.intents ==
            if e.id in db.inbox then db.intents else db.intents[e.Key() := AppliedRow(db.intents[e.Key()], e)]
  {
    hide UpdatedReservation, CashEffect, AppliedRow, OpenTicket;
  }

  lemma IngestOneGrounds(db: Tables, e: BrokerEvent, orders: map<ClientOrderKey, BrokerOrder>)
    requires Grounded(db.intents, orders) && e.Key() in orders && e.Key() in db.intents && (e.IsFill() ==> e.id.fillPrice.Some?)
    ensures Grounded(Ingest(db, e).db.intents, orders)
  {
    hide Ingest, AppliedRow;
    IngestOneIntents(db, e);
  }

  /** Labels of commands and intents may differ; nothing else does. */
  predicate Relabeling(db: Tables, after: Tables) {
    && SameEconomics(db, after) && Relabeled(db.intents, after.intents)
    && after.reservations == db.reservations && after.cancels == db.cancels && after.gate == db.gate
    && after.baseline == db.baseline && after.runs == db.runs && after.discrepancies == db.discrepancies
    && (OutboxFiled(db.outbox) ==> OutboxFiled(after.outbox))
  }

  lemma RelabelingKeeps(db: Tables, after: Tables, b: Broker)
    requires StoreInv(db) && Linked(db, b) && Relabeling(db, after)
    ensures StoreInv(after) && Linked(after, b)
  {
    hide StoreInv, ReservationsKept, OutboxFiled, GateInv, EventSet;
    KeepAll(db.reservations);
    QuietKeepsInv(db, after);
  }

  lemma RecoverRelabels(db: Tables)
    ensures Relabeling(db, RecoverClaimed(db, db.outbox.Keys))
  {
    RecoverShape(db, db.outbox.Keys);
  }

  lemma ResolvedIntent(db: Tables, truths: map<ClientOrderKey, BrokerOrderTruth>, k: ClientOrderKey)
    requires k in db.intents
    ensures var after := ResolveAll(db, truths).intents;
            && k in after && after[k].intent == db.intents[k].intent && after[k].filled == db.intents[k].filled
            && (after[k].status == Filled ==> db.intents[k].status == Filled)
  {
  }

  lemma ResolveNames(db: Tables, truths: map<ClientOrderKey, BrokerOrderTruth>)
    ensures ResolveAll(db, truths).intents.Keys == db.intents.Keys
  {
    hide Resolves, Joined;
  }

  lemma ResolveLabels(db: Tables, truths: map<ClientOrderKey, BrokerOrderTruth>)
    ensures Relabeled(db.intents, ResolveAll(db, truths).intents)
  {
    hide ResolveAll;
    ResolveNames(db, truths);
    forall k | k in db.intents
      ensures k in ResolveAll(db, truths).intents
      ensures ResolveAll(db, truths).intents[k].intent == db.intents[k].intent
      ensures ResolveAll(db, truths).intents[k].filled == db.intents[k].filled
      ensures ResolveAll(db, truths).intents[k].status == Filled ==> db.intents[k].status == Filled
    {
      ResolvedIntent(db, truths, k);
    }
  }

  lemma ResolveFiles(db: Tables, truths: map<ClientOrderKey, BrokerOrderTruth>)
    requires OutboxFiled(db.outbox)
    ensures OutboxFiled(ResolveAll(db, truths).outbox)
  {
  }

  lemma ResolveShape(db: Tables, truths: map<ClientOrderKey, BrokerOrderTruth>)
    ensures Relabeling(db, ResolveAll(db, truths))
  {
    ResolveLabels(db, truths);
    if OutboxFiled(db.outbox) { ResolveFiles(db, truths); }
    hide Relabeled, OutboxFiled;
  }

  lemma ResolveRelabels(db: Tables, truths: map<ClientOrderKey, BrokerOrderTruth>, orders: map<ClientOrderKey, BrokerOrder>)
    requires truths.Keys <= orders.Keys && Grounded(db.intents, orders)
    ensures var after := ResolveAll(db, truths); Relabeling(db, after) && Grounded(after.intents, orders)
  {
    ResolveShape(db, truths);
    hide Relabeling;
  }

  lemma RequeueRelabels(db: Tables, keys: set<ClientOrderKey>, asOf: Time, orders: map<ClientOrderKey, BrokerOrder>)
    requires Grounded(db.intents, orders)
    ensures var after := RequeueAll(db, keys, asOf); Relabeling(db, after) && Grounded(after.intents, orders)
  {
    var after := RequeueAll(db, keys, asOf);
    assert Relabeled(db.intents, after.intents);
  }

  /* ---------- Catching up ---------- */

  /** A command of unknown outcome whose order the broker does not have, and whose claim the snapshot is not
      newer than. */
  predicate ClaimTooNew(db: Tables, orders: set<ClientOrderKey>, asOf: Time, k: ClientOrderKey) {
    && k in db.outbox && k in db.intents && k !in orders
    && db.outbox[k].claimedAt.Some? && asOf <= db.outbox[k].claimedAt.value
    && (db.outbox[k].status == Unknown || db.outbox[k].status == Claimed)
    && (db.intents[k].status == SubmissionUnknown || (db.outbox[k].status == Claimed && Joined(db, k)))
  }

  predicate AnyClaimTooNew(db: Tables, orders: set<ClientOrderKey>, asOf: Time) {
    exists k :: k in db.outbox && ClaimTooNew(db, orders, asOf, k)
  }

  /** Where a command ends up: at the broker, back in the queue, or, when a cancel was requested while its
      outcome was unknown, still unknown. */
  function SettledStatus(db: Tables, orders: set<ClientOrderKey>, k: ClientOrderKey): OutboxStatus
    requires k in db.outbox
  {
    var status := db.outbox[k].status;
    if status == Pending || status == Delivered then status
    else if k in orders then Delivered
    else if k in db.intents && (db.intents[k].status == SubmissionUnknown || (status == Claimed && Joined(db, k))) then Pending
    else Unknown
  }

  predicate Settled(db: Tables, after: Tables, orders: set<ClientOrderKey>) {
    after.outbox.Keys == db.outbox.Keys && forall k :: k in db.outbox ==> after.outbox[k].status == SettledStatus(db, orders, k)
  }

  lemma RecoveredCommand(db: Tables, k: ClientOrderKey)
    requires k in db.outbox
    ensures var after := RecoverClaimed(db, db.outbox.Keys);
            && k in after.outbox && after.outbox[k].claimedAt == db.outbox[k].claimedAt
            && after.outbox[k].status == (if db.outbox[k].status == Claimed then Unknown else db.outbox[k].status)
            && (k in after.intents <==> k in db.intents)
            && (k in db.intents ==>
                  (after.intents[k].status == SubmissionUnknown
                   <==> db.intents[k].status == SubmissionUnknown || (db.outbox[k].status == Claimed && Joined(db, k))))
  {
  }

  lemma ResolvedCommand(db: Tables, truths: map<ClientOrderKey, BrokerOrderTruth>, k: ClientOrderKey)
    requires k in db.outbox
    ensures var after := ResolveAll(db, truths);
            && k in after.outbox && after.outbox[k].claimedAt == db.outbox[k].claimedAt
            && after.outbox[k].status == (if Resolves(db, truths, k) then Delivered else db.outbox[k].status)
  {
  }

  lemma RequeuedCommand(db: Tables, keys: set<ClientOrderKey>, asOf: Time, k: ClientOrderKey)
    requires k in db.outbox
    ensures var after := RequeueAll(db, keys, asOf);
            && k in after.outbox
            && after.outbox[k].status == (if k in keys && Unresolved(db, k) then Pending else db.outbox[k].status)
  {
  }

  /** The three relabelings of a run, on one command. */
  lemma CommandSettles(
    db: Tables, ingested: Tables, truths: map<ClientOrderKey, BrokerOrderTruth>, asOf: Time, k: ClientOrderKey)
    requires SameFrame(RecoverClaimed(db, db.outbox.Keys), ingested) && k in db.outbox
    ensures var recovered := RecoverClaimed(db, db.outbox.Keys);
            var resolved := ResolveAll(ingested, truths);
            k in AbsentUnknown(recovered.intents, truths) && TooOld(resolved, k, asOf) <==> ClaimTooNew(db, truths.Keys, asOf, k)
    ensures var recovered := RecoverClaimed(db, db.outbox.Keys);
            var after := RequeueAll(ResolveAll(ingested, truths), AbsentUnknown(recovered.intents, truths), asOf);
            k in after.outbox && ((k in truths ==> k in db.intents) ==> after.outbox[k].status == SettledStatus(db, truths.Keys, k))
  {
    hide RecoverClaimed, ResolveAll, RequeueAll;
    var recovered := RecoverClaimed(db, db.outbox.Keys);
    var resolved := ResolveAll(ingested, truths);
    RecoveredCommand(db, k);
    ResolvedCommand(ingested, truths, k);
    RequeuedCommand(resolved, AbsentUnknown(recovered.intents, truths), asOf, k);
  }

  /** The requeueing is refused exactly for a claim that the snapshot is not newer than. */
  lemma CommandsSettle(db: Tables, ingested: Tables, truths: map<ClientOrderKey, BrokerOrderTruth>, asOf: Time)
    requires SameFrame(RecoverClaimed(db, db.outbox.Keys), ingested) && forall k :: k in truths ==> k in db.intents
    ensures var recovered := RecoverClaimed(db, db.outbox.Keys);
            var resolved := ResolveAll(ingested, truths);
            var absent := AbsentUnknown(recovered.intents, truths);
            && ((exists k :: k in absent && TooOld(resolved, k, asOf)) <==> AnyClaimTooNew(db, truths.Keys, asOf))
            && Settled(db, RequeueAll(resolved, absent, asOf), truths.Keys)
  {
    hide ResolveAll, RequeueAll, RecoverClaimed, SameFrame, ClaimTooNew, SettledStatus, AbsentUnknown;
    var recovered := RecoverClaimed(db, db.outbox.Keys);
    var resolved := ResolveAll(ingested, truths);
    var absent := AbsentUnknown(recovered.intents, truths);
    CommandKeys(db, ingested, truths, absent, asOf);
    forall k | k in db.outbox
      ensures k in absent && TooOld(resolved, k, asOf) <==> ClaimTooNew(db, truths.Keys, asOf, k)
      ensures RequeueAll(resolved, absent, asOf).outbox[k].status == SettledStatus(db, truths.Keys, k)
    {
      CommandSettles(db, ingested, truths, asOf, k);
    }
  }

  lemma CommandKeys(db: Tables, ingested: Tables, truths: map<ClientOrderKey, BrokerOrderTruth>, absent: set<ClientOrderKey>, asOf: Time)
    requires SameFrame(RecoverClaimed(db, db.outbox.Keys), ingested)
    ensures ResolveAll(ingested, truths).outbox.Keys == db.outbox.Keys
    ensures RequeueAll(ResolveAll(ingested, truths), absent, asOf).outbox.Keys == db.outbox.Keys
  {
  }

  /** What the broker once was: its orders and events are still there. */
  predicate Earlier(h: Broker, b: Broker) {
    && (forall k :: k in h.orders ==> k in b.orders && b.orders[k].intent == h.orders[k].intent)
    && (forall e :: e in h.events ==> e in b.events)
  }

  lemma EarlierSelf(b: Broker)
    ensures Earlier(b, b)
  {
  }

  /** Catching up with a snapshot of the broker as it once was adds the events of that time, and is refused
      exactly when a claim is too new for the snapshot. */
  lemma CatchesUp(db: Tables, b: Broker, h: Broker, startingCash: Money, asOf: Time)
    requires InStep(db, b, startingCash) && BrokerInv(h, startingCash) && Earlier(h, b) && forall k :: k in h.orderKeys ==> k in h.orders
    ensures var r := CaughtUp(db, Snapshot(h, asOf));
            && (r.Err? <==> AnyClaimTooNew(db, h.orders.Keys, asOf))
            && (r.Ok? ==>
                  && Settled(db, r.value, h.orders.Keys)
                  && StoreInv(r.value) && Linked(r.value, b) && Grounded(r.value.intents, b.orders)
                  && r.value.applied == db.applied + EventSet(h.events) && Carries(db, r.value))
  {
    hide StoreInv, KeysListed, OrdersMatch, BooksBalance, SequencesIncrease, Linked, Grounded, StatusesBacked;
    hide SameFrame, Relabeling;
    hide BaselineSound, AnyClaimTooNew, Settled, Protections, ProtectionOrders, OrderTruths, Carries, EventSet;
    hide RecoverClaimed, ResolveAll, RequeueAll, IngestKnown, ByKey, Ingest, AbsentUnknown, OutboxFiled, TooOld;
    var truths := ByKey(Snapshot(h, asOf).orders);
    SnapshotOrders(h, startingCash, asOf);
    var recovered := RecoverClaimed(db, db.outbox.Keys);
    RecoverRelabels(db);
    RelabelingKeeps(db, recovered, b);
    RelabelingCarries(db, recovered);
    RecoverGrounds(db, b.orders);
    var ingested := IngestKnown(recovered, h.events).db;
    IngestSome(recovered, b, startingCash, h.events);
    IngestGrounds(recovered, b, startingCash, h.events);
    SameFrameCarries(recovered, ingested);
    CarriesTransitive(db, recovered, ingested);
    OrdersHaveIntents(db, b);
    CommandsSettle(db, ingested, truths, asOf);
    Settles(db, ingested, AbsentUnknown(recovered.intents, truths), b, truths, asOf);
  }

  /** Catching up with the broker as it is applies exactly its events. */
  lemma CatchesUpNow(db: Tables, b: Broker, startingCash: Money, asOf: Time)
    requires InStep(db, b, startingCash)
    ensures forall k :: k in b.orderKeys ==> k in b.orders
    ensures var r := CaughtUp(db, Snapshot(b, asOf));
            && (r.Err? <==> AnyClaimTooNew(db, b.orders.Keys, asOf))
            && (r.Ok? ==>
                  && Settled(db, r.value, b.orders.Keys)
                  && StoreInv(r.value) && Linked(r.value, b) && Grounded(r.value.intents, b.orders)
                  && r.value.applied == EventSet(b.events) && Carries(db, r.value))
  {
    hide StoreInv, BrokerInv, Linked, Grounded, StatusesBacked, CaughtUp, Snapshot, AnyClaimTooNew, Settled, Carries, Earlier, EventSet;
    KnownKeys(b, startingCash);
    EarlierSelf(b);
    CatchesUp(db, b, b, startingCash, asOf);
    AppliedWithin(db, b);
  }

  /** Resolving and requeueing what is unknown, after every event has been ingested. */
  lemma Settles(
    db: Tables, ingested: Tables, absent: set<ClientOrderKey>, b: Broker, truths: map<ClientOrderKey, BrokerOrderTruth>, asOf: Time)
    requires StoreInv(ingested) && Linked(ingested, b) && Grounded(ingested.intents, b.orders) && Carries(db, ingested)
    requires truths.Keys <= b.orders.Keys
    ensures var after := RequeueAll(ResolveAll(ingested, truths), absent, asOf);
            StoreInv(after) && Linked(after, b) && Grounded(after.intents, b.orders) && Carries(db, after) && after.applied == ingested.applied
  {
    hide StoreInv, Linked, Grounded, Carries, Relabeling, ResolveAll, RequeueAll;
    var resolved := ResolveAll(ingested, truths);
    ResolveRelabels(ingested, truths, b.orders);
    RelabelingKeeps(ingested, resolved, b);
    RelabelingCarries(ingested, resolved);
    CarriesTransitive(db, ingested, resolved);
    var after := RequeueAll(resolved, absent, asOf);
    RequeueRelabels(resolved, absent, asOf, b.orders);
    RelabelingKeeps(resolved, after, b);
    RelabelingCarries(resolved, after);
    CarriesTransitive(db, resolved, after);
  }

  /** Neither the gate nor the reports change, and intents are kept. */
  predicate Carries(db: Tables, after: Tables) {
    && after.gate == db.gate && after.baseline == db.baseline && after.runs == db.runs
    && after.discrepancies == db.discrepancies && KeepsIntents(db.intents, after.intents)
  }

  lemma RelabelingCarries(db: Tables, after: Tables)
    requires Relabeling(db, after)
    ensures Carries(db, after) && after.applied == db.applied
  {
    hide OutboxFiled;
  }

  lemma SameFrameCarries(db: Tables, after: Tables)
    requires SameFrame(db, after)
    ensures Carries(db, after)
  {
  }

  lemma CarriesTransitive(a: Tables, b: Tables, c: Tables)
    requires Carries(a, b) && Carries(b, c)
    ensures Carries(a, c)
  {
  }

  lemma AppliedWithin(db: Tables, b: Broker)
    requires Linked(db, b)
    ensures db.applied + EventSet(b.events) == EventSet(b.events)
  {
  }

  lemma OrdersHaveIntents(db: Tables, b: Broker)
    requires Linked(db, b)
    ensures forall k :: k in b.orders ==> k in db.intents
  {
  }

  /* ---------- Nothing left to report ---------- */

  /** The store has caught up with the broker. */
  ghost predicate UpToDate(db: Tables, b: Broker, startingCash: Money) {
    && StoreInv(db) && BrokerInv(b, startingCash) && Linked(db, b) && db.applied == EventSet(b.events)
    && BaselineSound(db)
  }

  lemma NoOrderDiscrepancies(db: Tables, b: Broker, startingCash: Money, asOf: Time)
    requires UpToDate(db, b, startingCash)
    ensures OrderDiscrepancies(db.intents, ByKey(Snapshot(b, asOf).orders)) == {}
  {
    hide StoreInv, KeysListed, OrdersMatch, BooksBalance, SequencesIncrease, BaselineSound;
    hide FilledQuantity, ByKey;
    hide Protections, ProtectionOrders, OrderTruths;
    SnapshotOrders(b, startingCash, asOf);
    OrdersHaveIntents(db, b);
    forall k | k in b.orders
      ensures db.intents[k].filled == b.orders[k].filled
    {
      FillsAgree(db, b, startingCash, k);
    }
  }

  lemma NoMissingOrders(local: map<ClientOrderKey, IntentRow>, b: Broker, startingCash: Money, asOf: Time)
    requires BrokerInv(b, startingCash) && Grounded(local, b.orders)
    ensures MissingOrders(local, ByKey(Snapshot(b, asOf).orders)) == {}
  {
    hide KeysListed, OrdersMatch, BooksBalance, SequencesIncrease, ByKey, Protections, ProtectionOrders;
    hide OrderTruths, OrderTruth;
    SnapshotOrders(b, startingCash, asOf);
  }

  lemma NoPositionDiscrepancies(db: Tables, b: Broker, startingCash: Money)
    requires UpToDate(db, b, startingCash)
    ensures PositionDiscrepancies(db.intents, b.positions) == {}
  {
    hide StoreInv, BrokerInv, Linked, BaselineSound, LocalPosition, LocalInstruments, EventSet;
    forall i: Instrument
      ensures LocalPosition(db.intents, i) == Lookup(b.positions, i, 0)
    {
      PositionsAgree(db, b, startingCash, i);
    }
  }

  lemma ShortfallsFound(db: Tables, b: Broker, startingCash: Money, asOf: Time)
    requires UpToDate(db, b, startingCash)
    ensures forall k :: k in b.orderKeys ==> k in b.orders
    ensures ProtectionDiscrepancies(db.intents, Snapshot(b, asOf)) == OrderShortfalls(b)
  {
    hide StoreInv, OrdersMatch, BooksBalance, SequencesIncrease, BaselineSound, FilledQuantity;
    hide ByKey, CoveredQuantity;
    hide Protections, ProtectionOrders, OrderTruths, Snapshot, Linked, EventSet, KeysListed;
    KnownKeys(b, startingCash);
    SnapshotOrders(b, startingCash, asOf);
    OrdersHaveIntents(db, b);
    forall k | k in b.orders
      ensures db.intents[k].filled == b.orders[k].filled
      ensures CoveredQuantity(Snapshot(b, asOf), OrderTruth(k, b.orders[k]), k) == Covered(b.orders[k])
    {
      FillsAgree(db, b, startingCash, k);
      CoveredExactly(b, asOf, k);
    }
  }

  /** What a run finds about cash, given by how much the baseline misjudges it. */
  function CashFindings(b: Broker, drift: int): set<Discrepancy> {
    if Abs(drift) > CENT then {CashMismatch(USD, b.cash + drift, b.cash)} else {}
  }

  /** Local cash is the broker's cash up to the drift of the baseline. */
  lemma CashDrifts(db: Tables, b: Broker, startingCash: Money, asOf: Time)
    requires UpToDate(db, b, startingCash) && forall k :: k in b.orderKeys ==> k in b.orders
    ensures var after := SetBaseline(db, Snapshot(b, asOf));
            && ExpectedCash(after) == Some(b.cash + Drift(db, startingCash))
            && Drift(after, startingCash) == Drift(db, startingCash) && BaselineSound(after)
            && FieldDiscrepancies(after, Snapshot(b, asOf)) == {}
    ensures CashDiscrepancies(db, Snapshot(b, asOf)) == CashFindings(b, Drift(db, startingCash))
  {
    hide IntentsMatch, DecisionsUnique, ReservationsMatch, InboxMatches, OutboxFiled, CancelsFiled, GateInv;
    hide OrdersMatch, SequencesIncrease, KeysListed, Linked, CashFlow, TotalCommission, PositionBook, EventSet;
    hide Protections, ProtectionOrders, OrderTruths;
  }

  /** All that a run reports once the store has caught up: a drifted baseline and missing protection. */
  ghost function Misjudged(b: Broker, drift: int): set<Discrepancy> { CashFindings(b, drift) + Shortfalls(b) }

  /** A store that is up to date gives a run nothing to report, but for a drifted baseline and missing protection. */
  lemma FoundExactly(local: map<ClientOrderKey, IntentRow>, db: Tables, b: Broker, startingCash: Money, asOf: Time)
    requires UpToDate(db, b, startingCash) && Grounded(local, b.orders)
    ensures forall k :: k in b.orderKeys ==> k in b.orders
    ensures Findings(local, db, Snapshot(b, asOf)) == Misjudged(b, Drift(db, startingCash))
  {
    hide StoreInv, OrdersMatch, BooksBalance, SequencesIncrease, Linked, BaselineSound, Grounded;
    hide EventSet, CashFindings, Drift, OrderShortfalls, NakedLongs;
    hide OrderDiscrepancies, MissingOrders, PositionDiscrepancies, ProtectionDiscrepancies, CashDiscrepancies;
    hide FieldDiscrepancies, NakedExposures;
    hide Protections, ProtectionOrders, OrderTruths, ByKey, SetBaseline;
    NoOrderDiscrepancies(db, b, startingCash, asOf);
    NoMissingOrders(local, b, startingCash, asOf);
    NoPositionDiscrepancies(db, b, startingCash);
    ShortfallsFound(db, b, startingCash, asOf);
    CashDrifts(db, b, startingCash, asOf);
    NakedExactly(b, startingCash, asOf);
  }

  /* ---------- The theorem ---------- */

  /** Store and broker agree to the unit, cash up to the drift of the baseline. */
  ghost predicate Agreement(db: Tables, b: Broker, drift: int) {
    && db.positions == b.positions
    && ExpectedCash(db) == Some(b.cash + drift)
    && db.applied == EventSet(b.events)
    && (forall k :: k in b.orders ==> k in db.intents)
    && (forall k :: k in db.intents ==> db.intents[k].filled == if k in b.orders then b.orders[k].filled else 0)
  }

  /** A blocking ticket that a reconciliation does not resolve is open. */
  predicate BlockedElsewhere(gate: Gate) {
    exists id :: id in gate.tickets && OpenOutsideReconciliation(gate.tickets[id])
  }

  lemma StartKeepsStep(db: Tables, b: Broker, startingCash: Money, run: RunId, at: Time)
    requires InStep(db, b, startingCash) && OpenTicket(db.gate, ReconciliationInProgress, ReconcilerSource, Blocking, at, false).Ok?
    ensures var gate := OpenTicket(db.gate, ReconciliationInProgress, ReconcilerSource, Blocking, at, false).value;
            InStep(db.(gate := gate, runs := db.runs[run := Running]), b, startingCash)
  {
    hide StoreInv, BrokerInv, StatusBacked, OpenTicket;
    var gate := OpenTicket(db.gate, ReconciliationInProgress, ReconcilerSource, Blocking, at, false).value;
    TicketKeepsInv(db, ReconciliationInProgress, ReconcilerSource, Blocking, at, false);
    var begun := db.(gate := gate);
    var started := begun.(runs := db.runs[run := Running]);
    UntouchedKeepsInv(begun, started);
    SameCommands(db, started, b.orders);
  }

  lemma SameCommands(db: Tables, after: Tables, orders: map<ClientOrderKey, BrokerOrder>)
    requires StatusesBacked(db, orders) && after.intents == db.intents && after.outbox == db.outbox
    ensures StatusesBacked(after, orders)
  {
  }

  lemma TicketLeavesOthers(gate: Gate, at: Time)
    requires OpenTicket(gate, ReconciliationInProgress, ReconcilerSource, Blocking, at, false).Ok?
    ensures BlockedElsewhere(OpenTicket(gate, ReconciliationInProgress, ReconcilerSource, Blocking, at, false).value) <==> BlockedElsewhere(gate)
  {
    var r := OpenTicket(gate, ReconciliationInProgress, ReconcilerSource, Blocking, at, false).value;
    forall id | id in gate.tickets
      ensures id in r.tickets && r.tickets[id] == gate.tickets[id]
    {
    }
    if BlockedElsewhere(r) {
      var id :| id in r.tickets && OpenOutsideReconciliation(r.tickets[id]);
      assert RECONCILIATION_TICKETS[1] == (ReconciliationInProgress, ReconcilerSource);
      assert id in gate.tickets;
    }
  }

  lemma FillsAllAgree(db: Tables, b: Broker, startingCash: Money)
    requires UpToDate(db, b, startingCash)
    ensures forall k :: k in db.intents ==> db.intents[k].filled == if k in b.orders then b.orders[k].filled else 0
  {
    hide StoreInv, BrokerInv, Linked, BaselineSound, EventSet, FilledQuantity;
    forall k | k in db.intents
      ensures db.intents[k].filled == if k in b.orders then b.orders[k].filled else 0
    {
      FillsAgree(db, b, startingCash, k);
    }
  }

  lemma BooksAgree(db: Tables, b: Broker, startingCash: Money)
    requires UpToDate(db, b, startingCash)
    ensures db.positions == b.positions
  {
    hide IntentsMatch, DecisionsUnique, ReservationsMatch, InboxMatches, OutboxFiled, CancelsFiled, GateInv;
    hide OrdersMatch, SequencesIncrease, Linked, PositionBook, EventSet, KeysListed, BaselineSound;
  }

  /** The ticket of a critical finding is refused exactly when it is not open and one of the same time was resolved before. */
  predicate CriticalRefused(gate: Gate, at: Time) { TicketTaken(gate.tickets, CriticalDiscrepancy, ReconcilerSource, at) }

  predicate StartRefused(gate: Gate, at: Time) { TicketTaken(gate.tickets, ReconciliationInProgress, ReconcilerSource, at) }

  lemma RefusedExactly(gate: Gate, at: Time)
    ensures StartRefused(gate, at) <==> OpenTicket(gate, ReconciliationInProgress, ReconcilerSource, Blocking, at, false).Err?
    ensures CriticalRefused(gate, at) <==> OpenTicket(gate, CriticalDiscrepancy, ReconcilerSource, Blocking, at, false).Err?
  {
    hide OpenTicket, TicketTaken;
    OpenBlockingFreezes(gate, ReconciliationInProgress, ReconcilerSource, at, false);
    OpenBlockingFreezes(gate, CriticalDiscrepancy, ReconcilerSource, at, false);
  }

  lemma TicketsIndependent(gate: Gate, at: Time)
    requires !StartRefused(gate, at)
    ensures CriticalRefused(OpenTicket(gate, ReconciliationInProgress, ReconcilerSource, Blocking, at, false).value, at)
            <==> CriticalRefused(gate, at)
  {
    var r := OpenTicket(gate, ReconciliationInProgress, ReconcilerSource, Blocking, at, false).value;
    assert forall id :: id in gate.tickets ==> id in r.tickets && r.tickets[id] == gate.tickets[id];
  }

  /** The baseline is right up to a cent, and no buy order is short of protection. */
  predicate Clean(b: Broker, drift: int) { Abs(drift) <= CENT && !Uncovered(b.orders) }

  /** What a run reports once it has caught up. */
  ghost function ReportOf(b: Broker, drift: int): Report {
    if Clean(b, drift) then Report(Converged, {}, false) else Report(Blocked, Misjudged(b, drift), true)
  }

  /** All that is found is critical. */
  lemma StatusOfMisjudged(b: Broker, startingCash: Money, drift: int)
    requires BrokerInv(b, startingCash)
    ensures StatusOf(Misjudged(b, drift)) == ReportOf(b, drift).status && ReportOf(b, drift).discrepancies == Misjudged(b, drift)
    ensures (ReportOf(b, drift).status == Blocked <==> !Clean(b, drift)) && (ReportOf(b, drift).frozen <==> !Clean(b, drift))
  {
    hide BrokerInv, Shortfalls, Uncovered;
    ShortfallsExactly(b, startingCash);
    ShortfallsAreCritical(b);
    var found := Misjudged(b, drift);
    assert forall d :: d in found ==> Critical(d);
    if !Clean(b, drift) {
      if Abs(drift) > CENT { assert CashMismatch(USD, b.cash + drift, b.cash) in found; }
      assert found != {};
    } else {
      assert found == {};
    }
  }

  lemma ShortfallsAreCritical(b: Broker)
    ensures forall d :: d in Shortfalls(b) ==> Critical(d)
  {
    hide ProtectedIn;
  }

  /** What the end of a run against the current broker leaves behind. */
  lemma ConcludeAgrees(caughtUp: Tables, b: Broker, startingCash: Money, asOf: Time, run: RunId, at: Time)
    requires UpToDate(caughtUp, b, startingCash) && Grounded(caughtUp.intents, b.orders) && forall k :: k in b.orderKeys ==> k in b.orders
    ensures var drift := Drift(caughtUp, startingCash);
            var r := Conclude(SetBaseline(caughtUp, Snapshot(b, asOf)), run, Misjudged(b, drift), at);
            && (r.Err? <==> !Clean(b, drift) && CriticalRefused(caughtUp.gate, at))
            && (r.Ok? ==>
                  && r.value.1 == ReportOf(b, drift)
                  && InStep(r.value.0, b, startingCash) && Agreement(r.value.0, b, drift) && Drift(r.value.0, startingCash) == drift
                  && r.value.0.outbox == caughtUp.outbox
                  && (Clean(b, drift) ==> r.value.0.gate == Unfreeze(caughtUp.gate))
                  && OpenRows(r.value.0.discrepancies) == Misjudged(b, drift)
                  && r.value.0.runs == caughtUp.runs[run := r.value.1.status])
  {
    hide StoreInv, BrokerInv, StatusBacked, EventSet, Unfreeze, Lifecycles, SetBaseline, StatusOf;
    hide GateInv, FilledQuantity, OpenRows, Grounded, Misjudged, Clean, ReportOf, OpenTicket, TicketTaken, Drift, InStep, ExpectedCash, Linked;
    var drift := Drift(caughtUp, startingCash);
    var found := Misjudged(b, drift);
    StatusOfMisjudged(b, startingCash, drift);
    var based := SetBaseline(caughtUp, Snapshot(b, asOf));
    CashDrifts(caughtUp, b, startingCash, asOf);
    BaselineCarries(caughtUp, Snapshot(b, asOf));
    var r := Conclude(based, run, found, at);
    RefusedExactly(based.gate, at);
    OpenRowsAreFindings(based.discrepancies, found);
    if r.Ok? {
      var gate := ConcludeShape(based, run, found, at);
      SameBaseline(based, r.value.0, startingCash);
      ReportsKeepStep(caughtUp, r.value.0, b, startingCash);
      BooksAgree(caughtUp, b, startingCash);
      FillsAllAgree(caughtUp, b, startingCash);
      OrdersHaveIntents(caughtUp, b);
    }
  }

  lemma BaselineCarries(db: Tables, snapshot: BrokerSnapshot)
    ensures var after := SetBaseline(db, snapshot);
            && after == db.(baseline := after.baseline) && (db.baseline.Some? ==> after.baseline == db.baseline)
  {
  }

  lemma KnownKeys(b: Broker, startingCash: Money)
    requires BrokerInv(b, startingCash)
    ensures forall k :: k in b.orderKeys ==> k in b.orders
  {
    hide OrdersMatch, SequencesIncrease, BooksBalance;
  }

  lemma SameBaseline(db: Tables, after: Tables, startingCash: Money)
    requires BaselineSound(db) && after.baseline == db.baseline
    ensures BaselineSound(after) && Drift(after, startingCash) == Drift(db, startingCash)
    ensures after.cashDelta == db.cashDelta ==> ExpectedCash(after) == ExpectedCash(db)
  {
  }

  /** When a run against the current broker raises, stated before it starts. */
  predicate Raises(db: Tables, b: Broker, startingCash: Money, asOf: Time, at: Time) {
    || StartRefused(db.gate, at)
    || RunId(asOf, at) in db.runs
    || AnyClaimTooNew(db, b.orders.Keys, asOf)
    || (!Clean(b, Drift(db, startingCash)) && CriticalRefused(db.gate, at))
  }

  /** What a run leaves behind, compared with the tables it started from. */
  ghost predicate Outcome(db: Tables, after: Tables, report: Report, b: Broker, startingCash: Money, run: RunId) {
    var drift := Drift(db, startingCash);
    && report == ReportOf(b, drift)
    && InStep(after, b, startingCash) && Agreement(after, b, drift) && Drift(after, startingCash) == drift
    && Settled(db, after, b.orders.Keys)
    && (Clean(b, drift) ==> (after.gate.frozen <==> BlockedElsewhere(db.gate)))
    && OpenRows(after.discrepancies) == report.discrepancies
    && after.runs == db.runs[run := report.status]
  }

  /** The part of a run after its start. */
  lemma StartedRun(started: Tables, b: Broker, startingCash: Money, asOf: Time, run: RunId, at: Time)
    requires InStep(started, b, startingCash)
    ensures forall k :: k in b.orderKeys ==> k in b.orders
    ensures var c := CaughtUp(started, Snapshot(b, asOf));
            && (c.Err? <==> AnyClaimTooNew(started, b.orders.Keys, asOf))
            && (c.Ok? ==>
                  var r := Conclude(SetBaseline(c.value, Snapshot(b, asOf)), run,
                                    Findings(RecoverClaimed(started, started.outbox.Keys).intents, c.value, Snapshot(b, asOf)), at);
                  && (r.Err? <==> !Clean(b, Drift(started, startingCash)) && CriticalRefused(started.gate, at))
                  && (r.Ok? ==> Outcome(started, r.value.0, r.value.1, b, startingCash, run)))
  {
    hide StoreInv, BrokerInv, Linked, StatusesBacked, BaselineSound, EventSet, Unfreeze, CriticalRefused;
    hide Findings, Conclude, Drift, ReportOf, Misjudged, Clean, AnyClaimTooNew;
    hide CaughtUp, SettledStatus, Agreement, Grounded, OpenRows, SetBaseline, BlockedElsewhere;
    hide OrderTruths, Protections, ProtectionOrders, RecoverClaimed;
    StatusOfMisjudged(b, startingCash, Drift(started, startingCash));
    CatchesUpNow(started, b, startingCash, asOf);
    var c := CaughtUp(started, Snapshot(b, asOf));
    if c.Ok? {
      RecoverGrounds(started, b.orders);
      SameBaseline(started, c.value, startingCash);
      FoundExactly(RecoverClaimed(started, started.outbox.Keys).intents, c.value, b, startingCash, asOf);
      ConcludeAgrees(c.value, b, startingCash, asOf, run, at);
      UnfreezeOpens(c.value.gate);
    }
  }

  /** The central result. Whatever crashes, drops and duplicates led to a state in which store and broker are
      in step, one reconciliation of the current broker raises exactly when `Raises` says so; otherwise it
      reports exactly the drift of its baseline, if that exceeds a cent, and the buy orders and instruments short of
      protection, and leaves fills, positions and events in exact agreement with the broker and every command settled. */
  lemma ReconcileExactly(db: Tables, b: Broker, startingCash: Money, asOf: Time, at: Time)
    requires InStep(db, b, startingCash)
    ensures forall k :: k in b.orderKeys ==> k in b.orders
    ensures var r := Reconcile(db, Snapshot(b, asOf), at);
            && (r.Err? <==> Raises(db, b, startingCash, asOf, at))
            && (r.Ok? ==> Outcome(db, r.value.0, r.value.1, b, startingCash, RunId(asOf, at)))
  {
    hide InStep, OpenTicket, TicketTaken, CriticalRefused, StartRefused, Findings, Conclude, Drift, AnyClaimTooNew, CaughtUp;
    hide SetBaseline, RecoverClaimed, Outcome, OrderTruths, Protections, ProtectionOrders;
    var run := RunId(asOf, at);
    KeysOf(db, b, startingCash);
    RefusedExactly(db.gate, at);
    if !StartRefused(db.gate, at) && run !in db.runs {
      var gate := OpenTicket(db.gate, ReconciliationInProgress, ReconcilerSource, Blocking, at, false).value;
      var started := db.(gate := gate, runs := db.runs[run := Running]);
      StartKeepsStep(db, b, startingCash, run, at);
      TicketsIndependent(db.gate, at);
      SameClaims(db, started, b.orders.Keys, asOf);
      StartedRun(started, b, startingCash, asOf, run, at);
      StartMisjudgesAlike(db, started, startingCash);
      var r := Reconcile(db, Snapshot(b, asOf), at);
      if r.Ok? { OutcomeAlike(db, r.value.0, r.value.1, b, startingCash, run, at); }
    }
  }

  lemma KeysOf(db: Tables, b: Broker, startingCash: Money)
    requires InStep(db, b, startingCash)
    ensures forall k :: k in b.orderKeys ==> k in b.orders
  {
    hide StoreInv, Linked, StatusesBacked, BaselineSound, BrokerInv;
    KnownKeys(b, startingCash);
  }

  lemma StartMisjudgesAlike(db: Tables, started: Tables, startingCash: Money)
    requires started.baseline == db.baseline
    ensures Drift(started, startingCash) == Drift(db, startingCash)
  {
  }

  /** The start of a run changes nothing that its outcome is compared with. */
  lemma OutcomeAlike(db: Tables, after: Tables, report: Report, b: Broker, startingCash: Money, run: RunId, at: Time)
    requires !StartRefused(db.gate, at)
    requires var gate := OpenTicket(db.gate, ReconciliationInProgress, ReconcilerSource, Blocking, at, false).value;
             Outcome(db.(gate := gate, runs := db.runs[run := Running]), after, report, b, startingCash, run)
    ensures Outcome(db, after, report, b, startingCash, run)
  {
    hide InStep, Agreement, OpenTicket, ReportOf, SettledStatus, OpenRows, BlockedElsewhere;
    RefusedExactly(db.gate, at);
    TicketLeavesOthers(db.gate, at);
    var gate := OpenTicket(db.gate, ReconciliationInProgress, ReconcilerSource, Blocking, at, false).value;
    SettledAlike(db, db.(gate := gate, runs := db.runs[run := Running]), after, b.orders.Keys);
  }

  lemma SameClaims(db: Tables, after: Tables, orders: set<ClientOrderKey>, asOf: Time)
    requires after.outbox == db.outbox && after.intents == db.intents
    ensures AnyClaimTooNew(after, orders, asOf) <==> AnyClaimTooNew(db, orders, asOf)
  {
  }

  lemma UnfreezeOpens(gate: Gate)
    ensures Unfreeze(gate).frozen <==> BlockedElsewhere(gate)
  {
    UnfreezeOpensExactly(gate);
  }

  lemma SettledAlike(db: Tables, started: Tables, after: Tables, orders: set<ClientOrderKey>)
    requires Settled(started, after, orders) && started.outbox == db.outbox && started.intents == db.intents
    ensures Settled(db, after, orders)
  {
  }

  /* ---------- Any run, also against a snapshot of the past ---------- */

  /** Changing only the reports, the baseline and the gate keeps store and broker in step. */
  lemma ReportsKeepStep(caughtUp: Tables, after: Tables, b: Broker, startingCash: Money)
    requires StoreInv(caughtUp) && BrokerInv(b, startingCash) && Linked(caughtUp, b) && Grounded(caughtUp.intents, b.orders)
    requires after == caughtUp.(baseline := after.baseline, discrepancies := after.discrepancies, runs := after.runs, gate := after.gate)
    requires BaselineSound(after) && (GateInv(caughtUp.gate) ==> GateInv(after.gate))
    ensures InStep(after, b, startingCash)
  {
    hide StoreInv, BrokerInv, StatusBacked, EventSet, GateInv, BaselineSound, Grounded;
    UntouchedKeepsInv(caughtUp, after.(gate := caughtUp.gate));
    GateStepKeepsInv(after.(gate := caughtUp.gate), after.gate);
    GroundedIsBacked(after, b.orders);
  }

  lemma ConcludeShape(db: Tables, run: RunId, found: set<Discrepancy>, at: Time) returns (gate: Gate)
    requires Conclude(db, run, found, at).Ok?
    ensures Conclude(db, run, found, at).value.0 == Reported(db, run, found, gate)
    ensures GateInv(db.gate) ==> GateInv(gate)
  {
    hide OpenTicket, Unfreeze, GateInv, StatusOf, Reported;
    if GateInv(db.gate) {
      UnfreezeKeepsGate(db.gate);
      OpenKeepsGate(db.gate, CriticalDiscrepancy, ReconcilerSource, Blocking, at, false);
    }
    gate := if StatusOf(found) == Blocked
      then OpenTicket(db.gate, CriticalDiscrepancy, ReconcilerSource, Blocking, at, false).value else Unfreeze(db.gate);
  }

  lemma ConcludeKeepsStep(
    caughtUp: Tables, b: Broker, h: Broker, startingCash: Money, asOf: Time, run: RunId, found: set<Discrepancy>, at: Time)
    requires StoreInv(caughtUp) && BrokerInv(b, startingCash) && Linked(caughtUp, b) && Grounded(caughtUp.intents, b.orders)
    requires BaselineSound(caughtUp) && forall k :: k in h.orderKeys ==> k in h.orders
    ensures var based := SetBaseline(caughtUp, Snapshot(h, asOf));
            var r := Conclude(based, run, found, at);
            r.Ok? ==> InStep(r.value.0, b, startingCash) && r.value.0.intents == caughtUp.intents && r.value.0.baseline == based.baseline
  {
    hide StoreInv, BrokerInv, EventSet, Conclude, GateInv, Grounded, InStep, Linked, ExpectedCash, SetBaseline, BaselineSound;
    var based := SetBaseline(caughtUp, Snapshot(h, asOf));
    BaselineCarries(caughtUp, Snapshot(h, asOf));
    NewBaselineSound(caughtUp, h, asOf);
    var r := Conclude(based, run, found, at);
    if r.Ok? {
      var gate := ConcludeShape(based, run, found, at);
      SameBaseline(based, r.value.0, startingCash);
      ReportsKeepStep(caughtUp, r.value.0, b, startingCash);
    }
  }

  lemma NewBaselineSound(db: Tables, h: Broker, asOf: Time)
    requires BaselineSound(db) && forall k :: k in h.orderKeys ==> k in h.orders
    ensures BaselineSound(SetBaseline(db, Snapshot(h, asOf)))
  {
  }

  /** The baseline that a whole run against a snapshot of the past leaves behind. */
  ghost function BaselineAfter(db: Tables, h: Broker): Option<Baseline> {
    if db.baseline.Some? then db.baseline else Some(Baseline(h.cash, Some(0), CashFlow(db.applied + EventSet(h.events))))
  }

  /** Every run, against the broker as it is or as it once was, whatever it finds, keeps store and broker in step. */
  lemma ReconcileKeepsStep(db: Tables, b: Broker, h: Broker, startingCash: Money, asOf: Time, at: Time)
    requires InStep(db, b, startingCash) && BrokerInv(h, startingCash) && Earlier(h, b)
    ensures forall k :: k in h.orderKeys ==> k in h.orders
    ensures var r := Reconcile(db, Snapshot(h, asOf), at);
            r.Ok? ==> InStep(r.value.0, b, startingCash) && KeepsIntents(db.intents, r.value.0.intents) && r.value.0.baseline == BaselineAfter(db, h)
  {
    hide StoreInv, BrokerInv, Linked, StatusesBacked, BaselineSound, EventSet, OpenTicket, Findings, Conclude, Earlier, CashFlow;
    hide Grounded, SetBaseline;
    hide CaughtUp, AnyClaimTooNew, Settled, OrderTruths, Protections, ProtectionOrders, RecoverClaimed, KeepsIntents;
    KnownKeys(h, startingCash);
    var r := Reconcile(db, Snapshot(h, asOf), at);
    if r.Ok? {
      var run := RunId(asOf, at);
      StartKeepsStep(db, b, startingCash, run, at);
      var gate := OpenTicket(db.gate, ReconciliationInProgress, ReconcilerSource, Blocking, at, false).value;
      var started := db.(gate := gate, runs := db.runs[run := Running]);
      CatchesUp(started, b, h, startingCash, asOf);
      var caughtUp := CaughtUp(started, Snapshot(h, asOf)).value;
      SameBaseline(started, caughtUp, startingCash);
      ConcludeKeepsStep(caughtUp, b, h, startingCash, asOf, run,
                        Findings(RecoverClaimed(started, started.outbox.Keys).intents, caughtUp, Snapshot(h, asOf)), at);
      BaselineIs(caughtUp, h, asOf);
    }
  }

  lemma BaselineIs(db: Tables, h: Broker, asOf: Time)
    requires StoreInv(db) && forall k :: k in h.orderKeys ==> k in h.orders
    ensures SetBaseline(db, Snapshot(h, asOf)).baseline ==
            if db.baseline.Some? then db.baseline else Some(Baseline(h.cash, Some(0), CashFlow(db.applied)))
  {
    hide IntentsMatch, DecisionsUnique, ReservationsMatch, InboxMatches, OutboxFiled, CancelsFiled, GateInv;
    hide CashFlow, TotalCommission, PositionBook, Protections, ProtectionOrders, OrderTruths;
  }

  /** How far a baseline drifts: by what moved between the snapshot and the events applied when it was taken. */
  lemma BaselineDrifts(db: Tables, h: Broker, startingCash: Money, asOf: Time)
    requires StoreInv(db) && BrokerInv(h, startingCash) && db.baseline.None?
    ensures forall k :: k in h.orderKeys ==> k in h.orders
    ensures Drift(SetBaseline(db, Snapshot(h, asOf)), startingCash) == CashFlow(EventSet(h.events)) - CashFlow(db.applied)
  {
    hide StoreInv, KeysListed, OrdersMatch, SequencesIncrease, CashFlow, PositionBook, EventSet, SetBaseline, Snapshot;
    KnownKeys(h, startingCash);
    BaselineIs(db, h, asOf);
  }
}

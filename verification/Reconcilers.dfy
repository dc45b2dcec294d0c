/** The reconciler as a class over the store: the loops of one run, each proved against its part of
    ReconciliationModel, and the run as a whole against Reconcile. */
module Reconcilers {
  import opened BrokerModel
  import opened ControlModels
  import opened ControlTables
  import opened Convergence
  import opened ExecutionStore
  import opened FreezeGate
  import opened Ledger
  import opened ProtectionLaws
  import opened ReconcileSteps
  import opened ReconciliationModel
  import opened StoreFrames
  import opened StoreInvariants
  import opened Sums

  /* ---------- Findings name their subjects ---------- */

  /** The one finding a run can make about a subject. */
  ghost function FindingOn(subject: Subject, local: map<ClientOrderKey, IntentRow>, caughtUp: Tables, snapshot: BrokerSnapshot): Discrepancy {
    var orders := ByKey(snapshot.orders);
    var currency := snapshot.baseCurrency;
    var baseline := SetBaseline(caughtUp, snapshot).baseline.value;
    match subject
    case SnapshotSubject(certificate) => IncompleteSnapshotFound(certificate, snapshot.asOf)
    case ConsensusSubject(scope) => ConsensusPendingFound(scope, 0)
    case BrokerOnlySubject(k) => BrokerOnlyOrder(k, if k in orders then orders[k].brokerOrderId else 0)
    case FillSubject(k) => FillQuantityMismatch(
      k, if k in caughtUp.intents then caughtUp.intents[k].filled else 0, if k in orders then orders[k].filled else 0)
    case MissingSubject(k) => LocalOrderMissing(k, if k in local then local[k].status else Proposed)
    case PositionSubject(i) => PositionMismatch(i, LocalPosition(caughtUp.intents, i), Lookup(snapshot.positions, i, 0))
    case ProtectionSubject(k) => ProtectionShortfall(
      k, if k in caughtUp.intents then caughtUp.intents[k].filled else 0, if k in orders then CoveredQuantity(snapshot, orders[k], k) else 0)
    case CashSubject(_) => CashMismatch(currency, if ExpectedCash(caughtUp).Some? then ExpectedCash(caughtUp).value else 0, snapshot.cash)
    case AccruedSubject(_) => AccruedCashMismatch(
      currency, if baseline.accruedCash.Some? then baseline.accruedCash.value else 0,
      if snapshot.accruedCash.Some? then snapshot.accruedCash.value else 0)
    case BalanceSubject(_) => BaseBalanceMismatch(
      currency, snapshot.cash, if currency in snapshot.currencyBalances then snapshot.currencyBalances[currency] else 0)
    case NakedSubject(i) => NakedLongExposure(i, Lookup(snapshot.positions, i, 0), Lookup(snapshot.protections, i, 0))
  }

  lemma OrderFindingsCanonical(local: map<ClientOrderKey, IntentRow>, caughtUp: Tables, snapshot: BrokerSnapshot)
    ensures forall d :: d in OrderDiscrepancies(caughtUp.intents, ByKey(snapshot.orders)) + MissingOrders(local, ByKey(snapshot.orders))
              ==> d == FindingOn(SubjectOf(d), local, caughtUp, snapshot)
  {
    hide ByKey, CoveredQuantity, LocalPosition, ExpectedCash;
  }

  lemma BookFindingsCanonical(local: map<ClientOrderKey, IntentRow>, caughtUp: Tables, snapshot: BrokerSnapshot)
    ensures forall d :: d in PositionDiscrepancies(caughtUp.intents, snapshot.positions) + NakedExposures(snapshot)
              ==> d == FindingOn(SubjectOf(d), local, caughtUp, snapshot)
  {
    hide ByKey, CoveredQuantity, LocalPosition, ExpectedCash, LocalInstruments;
  }

  lemma ProtectionFindingsCanonical(local: map<ClientOrderKey, IntentRow>, caughtUp: Tables, snapshot: BrokerSnapshot)
    ensures forall d :: d in ProtectionDiscrepancies(caughtUp.intents, snapshot) ==> d == FindingOn(SubjectOf(d), local, caughtUp, snapshot)
  {
    hide ByKey, CoveredQuantity, LocalPosition, ExpectedCash;
  }

  lemma AccountFindingsCanonical(local: map<ClientOrderKey, IntentRow>, caughtUp: Tables, snapshot: BrokerSnapshot)
    ensures forall d :: d in CashDiscrepancies(caughtUp, snapshot) + FieldDiscrepancies(SetBaseline(caughtUp, snapshot), snapshot)
              ==> d == FindingOn(SubjectOf(d), local, caughtUp, snapshot)
  {
    hide ByKey, CoveredQuantity, LocalPosition, ExpectedCash;
  }

  /** A run reports each subject once. */
  lemma FindingsAreDistinct(local: map<ClientOrderKey, IntentRow>, caughtUp: Tables, snapshot: BrokerSnapshot)
    ensures DistinctSubjects(Findings(local, caughtUp, snapshot))
  {
    hide FindingOn, SubjectOf, OrderDiscrepancies, MissingOrders, PositionDiscrepancies;
    hide ProtectionDiscrepancies, CashDiscrepancies, FieldDiscrepancies;
    hide NakedExposures, ByKey, SetBaseline;
    OrderFindingsCanonical(local, caughtUp, snapshot);
    BookFindingsCanonical(local, caughtUp, snapshot);
    ProtectionFindingsCanonical(local, caughtUp, snapshot);
    AccountFindingsCanonical(local, caughtUp, snapshot);
  }

  class Reconciler {
    const store: DurableExecutionStore

    constructor (store: DurableExecutionStore)
      ensures this.store == store
    {
      this.store := store;
    }

    /** Later orders replace earlier ones of the same key. */
    static method OrdersByKey(orders: seq<BrokerOrderTruth>) returns (byKey: map<ClientOrderKey, BrokerOrderTruth>)
      ensures byKey == ByKey(orders)
    {
      byKey := map[];
      for i := 0 to |orders|
        invariant byKey == ByKey(orders[..i])
      {
        assert orders[..i + 1][..i] == orders[..i];
        byKey := byKey[orders[i].key := orders[i]];
      }
      assert orders[..|orders|] == orders;
    }

    /* The store's transactions, with the whole state they lead to. */

    method IngestOne(e: BrokerEvent) returns (r: Result<bool>)
      modifies store
      ensures Outcome(store.State(), r) == Ingest(old(store.State()), e)
    {
      hide Ingest;
      IngestWrites(store.State(), e);
      r := store.IngestBrokerEvent(e);
    }

    method ResolveOne(k: ClientOrderKey, brokerOrderId: nat)
      modifies store
      ensures store.State() == ResolveUnknown(old(store.State()), k, brokerOrderId)
    {
      hide ResolveUnknown;
      ResolveWrites(store.State(), k, brokerOrderId);
      store.ResolveUnknownAtBroker(k, brokerOrderId);
    }

    method RequeueOne(k: ClientOrderKey, asOf: Time) returns (r: Result<bool>)
      modifies store
      ensures Outcome(store.State(), r) == RequeueUnknown(old(store.State()), k, asOf)
    {
      hide RequeueUnknown;
      RequeueWrites(store.State(), k, asOf);
      r := store.RequeueUnknownAbsentAtBroker(k, asOf);
    }

    method RecoverAll()
      modifies store
      ensures store.State() == RecoverClaimed(old(store.State()), old(store.outbox).Keys)
    {
      hide RecoverClaimed;
      RecoverWrites(store.State(), store.outbox.Keys);
      store.RecoverClaimedAsUnknown();
    }

    /** Ingests the events whose orders are known, in order; stops where ingestion raises. */
    method IngestEvents(events: seq<BrokerEvent>) returns (r: Result<()>)
      modifies store
      ensures Outcome(store.State(), r) == IngestKnown(old(store.State()), events)
      ensures SameFrame(old(store.State()), store.State())
    {
      hide Ingest, IngestKnown, SameFrame;
      ghost var before := store.State();
      IngestKnownNone(before, events);
      SameFrameReflexive(before);
      for i := 0 to |events|
        invariant Outcome(store.State(), Ok(())) == IngestKnown(before, events[..i])
        invariant SameFrame(before, store.State())
      {
        ghost var db := store.State();
        IngestKnownMore(before, events, i);
        if events[i].Key() in store.intents {
          KnownFrame(db, events[i]);
          SameFrameTransitive(before, db, Ingest(db, events[i]).db);
          var ingested := IngestOne(events[i]);
          if ingested.Err? {
            IngestKnownStops(before, events, i + 1);
            return Err(ingested.error);
          }
        }
      }
      assert events[..|events|] == events;
      r := Ok(());
    }

    /** Settles unknown commands the broker has, and compares every order's fills. */
    method CompareOrders(orders: map<ClientOrderKey, BrokerOrderTruth>) returns (found: set<Discrepancy>)
      modifies store
      ensures store.State() == ResolveAll(old(store.State()), orders)
      ensures found == OrderDiscrepancies(old(store.intents), orders)
    {
      hide ResolveAll, ResolveUnknown, Restrict, OrderDiscrepancies;
      ghost var before := store.State();
      found := {};
      var pending := orders.Keys;
      ResolveNothing(before);
      RestrictNone(orders);
      NoOrdersNoDiscrepancies(before.intents);
      while pending != {}
        invariant pending <= orders.Keys
        invariant store.State() == ResolveAll(before, Restrict(orders, orders.Keys - pending))
        invariant found == OrderDiscrepancies(before.intents, Restrict(orders, orders.Keys - pending))
        decreases pending
      {
        var k :| k in pending;
        ghost var done := orders.Keys - pending;
        assert done + {k} == orders.Keys - (pending - {k});
        pending := pending - {k};
        var one := CompareOrder(orders, before, done, k);
        found := found + one;
      }
      RestrictAll(orders);
      assert orders.Keys - {} == orders.Keys;
    }

    /** One order of the loop. */
    method CompareOrder(orders: map<ClientOrderKey, BrokerOrderTruth>, ghost before: Tables, ghost done: set<ClientOrderKey>, k: ClientOrderKey)
      returns (one: set<Discrepancy>)
      requires k in orders && k !in done && store.State() == ResolveAll(before, Restrict(orders, done))
      modifies store
      ensures store.State() == ResolveAll(before, Restrict(orders, done + {k}))
      ensures OrderDiscrepancies(before.intents, Restrict(orders, done + {k})) == OrderDiscrepancies(before.intents, Restrict(orders, done)) + one
    {
      hide ResolveAll, ResolveUnknown, Restrict, OrderDiscrepancies;
      ResolveOneMore(before, orders, done, k);
      OrderDiscrepanciesMore(before.intents, orders, done, k);
      ResolveKeepsFills(before, Restrict(orders, done), k);
      if k !in store.intents { return {BrokerOnlyOrder(k, orders[k].brokerOrderId)}; }
      ResolveUnknownKeepsFills(store.State(), k, orders[k].brokerOrderId);
      ResolveOne(k, orders[k].brokerOrderId);
      var filled := store.intents[k].filled;
      one := if filled != orders[k].filled then {FillQuantityMismatch(k, filled, orders[k].filled)} else {};
    }

    /** Requeues what was unknown and is absent at the broker; reports what claims a live order that is absent. */
    method CompareLocal(local: map<ClientOrderKey, IntentRow>, orders: map<ClientOrderKey, BrokerOrderTruth>, asOf: Time)
      returns (r: Result<set<Discrepancy>>)
      modifies store
      ensures r.Err? <==> exists k :: k in AbsentUnknown(local, orders) && TooOld(old(store.State()), k, asOf)
      ensures r.Err? ==> r.error == SnapshotNotNewer && store.gate == old(store.gate)
      ensures r.Ok? ==> store.State() == RequeueAll(old(store.State()), AbsentUnknown(local, orders), asOf)
      ensures r.Ok? ==> r.value == MissingOrders(local, orders)
    {
      hide RequeueAll, RequeueUnknown, TooOld, Restrict, AbsentUnknown, MissingOrders;
      ghost var before := store.State();
      var found: set<Discrepancy> := {};
      var pending := local.Keys;
      RequeueNothing(before, asOf);
      RestrictNone(local);
      NothingLocal(orders);
      while pending != {}
        invariant pending <= local.Keys
        invariant store.State() == RequeueAll(before, AbsentUnknown(Restrict(local, local.Keys - pending), orders), asOf)
        invariant store.gate == before.gate
        invariant found == MissingOrders(Restrict(local, local.Keys - pending), orders)
        invariant forall k :: k in AbsentUnknown(Restrict(local, local.Keys - pending), orders) ==> !TooOld(before, k, asOf)
        decreases pending
      {
        var k :| k in pending;
        ghost var done := local.Keys - pending;
        ghost var requeued := AbsentUnknown(Restrict(local, done), orders);
        LocalMore(local, orders, done, k);
        assert done + {k} == local.Keys - (pending - {k});
        pending := pending - {k};
        if k !in orders {
          if local[k].status == SubmissionUnknown {
            var again := RequeueAbsent(before, requeued, k, asOf);
            if again.Err? {
              AbsentStays(local, orders, k);
              return Err(again.error);
            }
          } else if ActiveLocal(local[k].status) {
            found := found + {LocalOrderMissing(k, local[k].status)};
          }
        }
      }
      assert local.Keys - {} == local.Keys;
      RestrictAll(local);
      r := Ok(found);
    }

    /** One requeue of the loop. */
    method RequeueAbsent(ghost before: Tables, ghost requeued: set<ClientOrderKey>, k: ClientOrderKey, asOf: Time) returns (r: Result<bool>)
      requires store.State() == RequeueAll(before, requeued, asOf) && k !in requeued
      modifies store
      ensures r.Err? <==> TooOld(before, k, asOf)
      ensures r.Err? ==> r.error == SnapshotNotNewer
      ensures r.Ok? ==> store.State() == RequeueAll(before, requeued + {k}, asOf)
      ensures store.gate == old(store.gate)
    {
      hide RequeueAll, RequeueUnknown, TooOld;
      RequeueOneMore(before, requeued, k, asOf);
      RequeueRefuses(store.State(), k, asOf);
      r := RequeueOne(k, asOf);
    }

    /* ---------- Positions, protection and cash ---------- */

    /** Adds up the signed fills of every intent, per instrument. */
    method LocalPositions() returns (positions: map<Instrument, int>)
      ensures positions.Keys == LocalInstruments(store.intents)
      ensures forall i :: Lookup(positions, i, 0) == LocalPosition(store.intents, i)
    {
      hide Sum;
      positions := map[];
      var intents := store.intents;
      var pending := intents.Keys;
      assert intents.Keys - pending == {};
      NoPositions(intents);
      while pending != {}
        invariant pending <= intents.Keys
        invariant positions.Keys == set k | k in intents.Keys - pending :: k.instrument
        invariant forall i :: Lookup(positions, i, 0) == Sum(intents.Keys - pending, OrderWeight(FilledOf(intents), i))
        decreases pending
      {
        var k :| k in pending;
        ghost var done := intents.Keys - pending;
        ghost var before := positions;
        assert done + {k} == intents.Keys - (pending - {k});
        pending := pending - {k};
        var signed := if k.side == Buy then intents[k].filled else 0 - intents[k].filled;
        positions := positions[k.instrument := (if k.instrument in positions then positions[k.instrument] else 0) + signed];
        forall i
          ensures Lookup(positions, i, 0) == Sum(done + {k}, OrderWeight(FilledOf(intents), i))
        {
          SumInsert(done, OrderWeight(FilledOf(intents), i), k);
          assert Lookup(before, i, 0) == Sum(done, OrderWeight(FilledOf(intents), i));
        }
      }
      assert intents.Keys - {} == intents.Keys;
    }

    method ComparePositions(broker: map<Instrument, int>) returns (found: set<Discrepancy>)
      ensures found == PositionDiscrepancies(store.intents, broker)
    {
      hide LocalPosition, LocalInstruments;
      var local := LocalPositions();
      found := {};
      var pending := local.Keys + broker.Keys;
      while pending != {}
        invariant pending <= LocalInstruments(store.intents) + broker.Keys
        invariant found == set i | i in LocalInstruments(store.intents) + broker.Keys - pending
                                   && LocalPosition(store.intents, i) != Lookup(broker, i, 0) ::
                             PositionMismatch(i, LocalPosition(store.intents, i), Lookup(broker, i, 0))
        decreases pending
      {
        var i :| i in pending;
        pending := pending - {i};
        assert Lookup(local, i, 0) == LocalPosition(store.intents, i);
        if Lookup(local, i, 0) != Lookup(broker, i, 0) { found := found + {PositionMismatch(i, Lookup(local, i, 0), Lookup(broker, i, 0))}; }
      }
    }

    /** The quantity the active children of an order protect, by kind. */
    static method ChildrenOf(children: seq<BrokerProtectionTruth>, k: ClientOrderKey) returns (any: bool, stop: nat, target: nat)
      ensures any == HasChildren(children, k)
      ensures stop == ChildQuantity(children, k, Stop) && target == ChildQuantity(children, k, Target)
    {
      any, stop, target := false, 0, 0;
      for i := 0 to |children|
        invariant any == HasChildren(children[..i], k)
        invariant stop == ChildQuantity(children[..i], k, Stop) && target == ChildQuantity(children[..i], k, Target)
      {
        hide HasChildren, ChildQuantity;
        AddChild(children[..i], children[i], k);
        assert children[..i] + [children[i]] == children[..i + 1];
        if children[i].parent == k && children[i].active {
          any := true;
          if children[i].kind == Stop { stop := stop + children[i].quantity; }
          if children[i].kind == Target { target := target + children[i].quantity; }
        }
      }
      assert children[..|children|] == children;
    }

    method CompareProtection(snapshot: BrokerSnapshot, orders: map<ClientOrderKey, BrokerOrderTruth>) returns (found: set<Discrepancy>)
      requires orders == ByKey(snapshot.orders)
      ensures found == ProtectionDiscrepancies(store.intents, snapshot)
    {
      hide ByKey, HasChildren, ChildQuantity, CoveredQuantity;
      found := {};
      var pending := orders.Keys;
      while pending != {}
        invariant pending <= orders.Keys
        invariant found == set k | k in orders && k !in pending && k in store.intents && orders[k].side == Buy
                                   && store.intents[k].filled > CoveredQuantity(snapshot, orders[k], k) ::
                             ProtectionShortfall(k, store.intents[k].filled, CoveredQuantity(snapshot, orders[k], k))
        decreases pending
      {
        var k :| k in pending;
        pending := pending - {k};
        if k in store.intents {
          var any, stop, target := ChildrenOf(snapshot.protectionOrders, k);
          var covered := if any then Min(stop, target) else orders[k].protection;
          CoveredIs(snapshot, orders[k], k);
          if orders[k].side == Buy && store.intents[k].filled > covered {
            found := found + {ProtectionShortfall(k, store.intents[k].filled, covered)};
          }
        }
      }
    }

    /** Compares cash with the baseline, or takes the baseline if there is none. */
    method CompareCash(snapshot: BrokerSnapshot) returns (found: set<Discrepancy>)
      modifies store
      ensures store.State() == SetBaseline(old(store.State()), snapshot)
      ensures found == CashDiscrepancies(old(store.State()), snapshot)
    {
      BaselineWrites(store.State(), snapshot);
      hide SetBaseline;
      found := {};
      var expected := store.ExpectedAccountCash();
      if expected.None? {
        store.SetAccountBaseline(snapshot);
      } else {
        KeptBaseline(store.State(), snapshot);
        if Abs(expected.value - snapshot.cash) > CENT { found := {CashMismatch(snapshot.baseCurrency, expected.value, snapshot.cash)}; }
      }
    }

    method CompareFields(snapshot: BrokerSnapshot) returns (found: set<Discrepancy>)
      ensures found == FieldDiscrepancies(store.State(), snapshot)
    {
      found := {};
      if store.baseline.None? { return; }
      var currency := snapshot.baseCurrency;
      var expected, actual := store.baseline.value.accruedCash, snapshot.accruedCash;
      if expected.Some? && actual.Some? && Abs(expected.value - actual.value) > CENT {
        found := found + {AccruedCashMismatch(currency, expected.value, actual.value)};
      }
      if currency in snapshot.currencyBalances && Abs(snapshot.currencyBalances[currency] - snapshot.cash) > CENT {
        found := found + {BaseBalanceMismatch(currency, snapshot.cash, snapshot.currencyBalances[currency])};
      }
    }

    static method FindNaked(snapshot: BrokerSnapshot) returns (found: set<Discrepancy>)
      ensures found == NakedExposures(snapshot)
    {
      found := {};
      var pending := snapshot.positions.Keys;
      while pending != {}
        invariant pending <= snapshot.positions.Keys
        invariant found == set i | i in snapshot.positions && i !in pending && snapshot.positions[i] > Lookup(snapshot.protections, i, 0) ::
                             NakedLongExposure(i, snapshot.positions[i], Lookup(snapshot.protections, i, 0))
        decreases pending
      {
        var i :| i in pending;
        pending := pending - {i};
        var covered := if i in snapshot.protections then snapshot.protections[i] else 0;
        if snapshot.positions[i] > covered { found := found + {NakedLongExposure(i, snapshot.positions[i], covered)}; }
      }
    }

    /* ---------- The discrepancy table ---------- */

    /** Records the findings one by one and closes the open rows whose subject was not found. */
    method RecordFindings(found: set<Discrepancy>)
      requires DistinctSubjects(found)
      modifies store`discrepancies
      ensures store.discrepancies == Lifecycles(old(store.discrepancies), found)
      ensures OpenRows(store.discrepancies) == found
    {
      hide RecordAll, CloseAbsent, RecordFinding, SubjectOf, OpenRows;
      ghost var table := store.discrepancies;
      var pending := found;
      assert found - pending == {};
      RecordNothing(table);
      while pending != {}
        invariant pending <= found
        invariant store.discrepancies == RecordAll(table, found - pending)
        decreases pending
      {
        var d :| d in pending;
        ghost var done := found - pending;
        assert done + {d} == found - (pending - {d});
        SubsetDistinct(found, done + {d});
        RecordOneMore(table, done, d);
        pending := pending - {d};
        store.discrepancies := RecordFinding(store.discrepancies, d);
      }
      assert found - {} == found;
      store.discrepancies := CloseAbsent(store.discrepancies, found);
      OpenRowsAreFindings(table, found);
    }

    /** Writes the report down, and freezes or unfreezes the store. */
    method ConcludeRun(run: RunId, found: set<Discrepancy>, at: Time) returns (r: Result<Report>)
      requires DistinctSubjects(found)
      modifies store
      ensures var concluded := Conclude(old(store.State()), run, found, at);
              if concluded.Ok? then r == Ok(concluded.value.1) && store.State() == concluded.value.0
              else r == Err(concluded.error) && store.gate == old(store.gate)
    {
      hide Lifecycles, OpenTicket, Unfreeze, StatusOf, OpenRows, OpenOutsideReconciliation;
      ghost var before := store.State();
      var status := StatusFrom(found);
      RecordFindings(found);
      store.runs := store.runs[run := status];
      if status == Blocked {
        var ticket := store.OpenFreezeTicket(CriticalDiscrepancy, ReconcilerSource, Blocking, at, false);
        if ticket.Err? { return Err(ticket.error); }
      } else {
        store.UnfreezeAfterReconciliation();
      }
      r := Ok(Report(status, found, status == Blocked));
    }

    static method StatusFrom(found: set<Discrepancy>) returns (status: RunStatus)
      ensures status == StatusOf(found)
    {
      var critical := exists d :: d in found && Critical(d);
      status := if critical then Blocked else if found != {} then Degraded else Converged;
    }

    /* ---------- The run ---------- */

    /** Catches up with a complete snapshot: recovers, ingests, settles and requeues, comparing orders on the way. */
    method CatchUp(snapshot: BrokerSnapshot, orders: map<ClientOrderKey, BrokerOrderTruth>, ghost local: map<ClientOrderKey, IntentRow>)
      returns (r: Result<set<Discrepancy>>)
      requires orders == ByKey(snapshot.orders)
      requires local == RecoverClaimed(store.State(), store.outbox.Keys).intents
      modifies store
      ensures store.gate == old(store.gate)
      ensures match CaughtUp(old(store.State()), snapshot)
              case Err(error) => r == Err(error)
              case Ok(caughtUp) =>
                && store.State() == caughtUp
                && r == Ok(OrderDiscrepancies(caughtUp.intents, orders) + MissingOrders(local, orders))
    {
      hide RecoverClaimed, IngestKnown, ResolveAll, RequeueAll, TooOld, AbsentUnknown, MissingOrders;
      hide OrderDiscrepancies, ByKey;
      ghost var before := store.State();
      RecoverWrites(before, before.outbox.Keys);
      RecoverAll();
      var seen := store.intents;
      var ingested := IngestEvents(snapshot.events);
      if ingested.Err? { return Err(ingested.error); }
      ghost var caught := store.State();
      var found := CompareOrders(orders);
      ghost var resolved := store.State();
      ResolveAllWrites(caught, orders);
      var missing := CompareLocal(seen, orders, snapshot.asOf);
      if missing.Err? { return Err(missing.error); }
      RequeueAllWrites(resolved, AbsentUnknown(seen, orders), snapshot.asOf);
      SameFillsSameDiscrepancies(caught, orders, AbsentUnknown(seen, orders), snapshot.asOf);
      r := Ok(found + missing.value);
    }

    /** Everything else that is compared once the store has caught up. */
    method CompareBooks(snapshot: BrokerSnapshot, orders: map<ClientOrderKey, BrokerOrderTruth>) returns (found: set<Discrepancy>)
      requires orders == ByKey(snapshot.orders)
      modifies store
      ensures store.State() == SetBaseline(old(store.State()), snapshot)
      ensures var db := old(store.State());
              found == PositionDiscrepancies(db.intents, snapshot.positions) + ProtectionDiscrepancies(db.intents, snapshot)
                       + CashDiscrepancies(db, snapshot) + FieldDiscrepancies(SetBaseline(db, snapshot), snapshot) + NakedExposures(snapshot)
    {
      hide SetBaseline, PositionDiscrepancies, ProtectionDiscrepancies, CashDiscrepancies, FieldDiscrepancies;
      hide NakedExposures, ByKey;
      var positions := ComparePositions(snapshot.positions);
      var protection := CompareProtection(snapshot, orders);
      var cash := CompareCash(snapshot);
      var fields := CompareFields(snapshot);
      var naked := FindNaked(snapshot);
      found := positions + protection + cash + fields + naked;
    }

    /** One run. When it raises after its start, the ticket it opened is still there. */
    method ReconcileSnapshot(snapshot: BrokerSnapshot, at: Time) returns (r: Result<Report>)
      requires snapshot.complete
      modifies store
      ensures var run := Reconcile(old(store.State()), snapshot, at);
              if run.Ok? then r == Ok(run.value.1) && store.State() == run.value.0 else r == Err(run.error)
      ensures r.Err? ==>
                var started := OpenTicket(old(store.gate), ReconciliationInProgress, ReconcilerSource, Blocking, at, false);
                store.gate == if started.Ok? then started.value else old(store.gate)
    {
      hide CaughtUp, Findings, Conclude, OpenTicket, RecoverClaimed, SetBaseline, ByKey;
      var run := RunId(snapshot.asOf, at);
      ghost var before := store.State();
      var ticket := store.OpenFreezeTicket(ReconciliationInProgress, ReconcilerSource, Blocking, at, false);
      if ticket.Err? { return Err(ticket.error); }
      if run in store.runs { return Err(IntegrityError); }
      store.runs := store.runs[run := Running];
      ghost var started := store.State();
      assert started == before.(gate := store.gate, runs := store.runs);
      var orders := OrdersByKey(snapshot.orders);
      ghost var local := RecoverClaimed(started, started.outbox.Keys).intents;
      var orderFindings := CatchUp(snapshot, orders, local);
      if orderFindings.Err? { return Err(orderFindings.error); }
      ghost var caughtUp := store.State();
      var bookFindings := CompareBooks(snapshot, orders);
      var found := orderFindings.value + bookFindings;
      FindingsJoin(local, caughtUp, snapshot, orders, found);
      FindingsAreDistinct(local, caughtUp, snapshot);
      BaselineWrites(caughtUp, snapshot);
      r := ConcludeRun(run, found, at);
    }

    /** A snapshot that is not complete is recorded as such and freezes the store; nothing is compared. */
    method RejectIncomplete(snapshot: BrokerSnapshot, at: Time) returns (r: Result<Report>)
      modifies store`gate, store`runs, store`discrepancies
      ensures var rejected := Incomplete(old(store.State()), snapshot, at);
              && r == rejected.result && store.gate == rejected.db.gate
              && store.runs == rejected.db.runs && store.discrepancies == rejected.db.discrepancies
    {
      hide OpenTicket;
      var run := RunId(snapshot.asOf, at);
      var d := IncompleteSnapshotFound(snapshot.certificate, snapshot.asOf);
      if run !in store.runs { store.runs := store.runs[run := IncompleteSnapshot]; }
      if d !in store.discrepancies { store.discrepancies := store.discrepancies[d := OpenRow]; }
      var ticket := store.OpenFreezeTicket(IncompleteBrokerSnapshot, ReconcilerSource, Blocking, at, false);
      if ticket.Err? { return Err(ticket.error); }
      r := Ok(Report(IncompleteSnapshot, {d}, true));
    }

    /** The reconciliation of any snapshot. */
    method ReconcileAny(snapshot: BrokerSnapshot, at: Time) returns (r: Result<Report>)
      modifies store
      ensures snapshot.complete ==>
                var run := Reconcile(old(store.State()), snapshot, at);
                if run.Ok? then r == Ok(run.value.1) && store.State() == run.value.0 else r == Err(run.error)
      ensures !snapshot.complete ==>
                var rejected := Incomplete(old(store.State()), snapshot, at); store.State() == rejected.db && r == rejected.result
    {
      hide Reconcile, Incomplete;
      IncompleteWrites(store.State(), snapshot, at);
      if snapshot.complete { r := ReconcileSnapshot(snapshot, at); } else { r := RejectIncomplete(snapshot, at); }
    }
  }

  /* ---------- Steps of the loops ---------- */

  lemma IncompleteWrites(db: Tables, snapshot: BrokerSnapshot, at: Time)
    ensures var after := Incomplete(db, snapshot, at).db;
            after == db.(gate := after.gate, runs := after.runs, discrepancies := after.discrepancies)
  {
    hide OpenTicket;
  }

  lemma IngestKnownNone(db: Tables, events: seq<BrokerEvent>)
    ensures IngestKnown(db, events[..0]) == Outcome(db, Ok(()))
  {
  }

  lemma RestrictNone<V>(m: map<ClientOrderKey, V>)
    ensures m.Keys - m.Keys == {} && Restrict(m, {}) == map[]
  {
  }

  lemma RestrictAll<V>(m: map<ClientOrderKey, V>)
    ensures Restrict(m, m.Keys) == m
  {
  }

  lemma OrderDiscrepanciesMore(
    intents: map<ClientOrderKey, IntentRow>, orders: map<ClientOrderKey, BrokerOrderTruth>, done: set<ClientOrderKey>, k: ClientOrderKey)
    requires k in orders && k !in done
    ensures OrderDiscrepancies(intents, Restrict(orders, done + {k})) ==
            OrderDiscrepancies(intents, Restrict(orders, done))
            + if k !in intents then {BrokerOnlyOrder(k, orders[k].brokerOrderId)}
              else if intents[k].filled != orders[k].filled then {FillQuantityMismatch(k, intents[k].filled, orders[k].filled)} else {}
  {
  }

  lemma ResolveKeepsFills(db: Tables, orders: map<ClientOrderKey, BrokerOrderTruth>, k: ClientOrderKey)
    ensures var after := ResolveAll(db, orders).intents;
            (k in after <==> k in db.intents) && (k in db.intents ==> after[k].filled == db.intents[k].filled)
  {
  }

  lemma ResolveUnknownKeepsFills(db: Tables, k: ClientOrderKey, brokerOrderId: nat)
    requires k in db.intents
    ensures var after := ResolveUnknown(db, k, brokerOrderId).intents; k in after && after[k].filled == db.intents[k].filled
  {
  }

  /** Settling and requeueing change no fills, so the order findings stay what they were. */
  lemma SameFillsSameDiscrepancies(db: Tables, orders: map<ClientOrderKey, BrokerOrderTruth>, absent: set<ClientOrderKey>, asOf: Time)
    ensures OrderDiscrepancies(RequeueAll(ResolveAll(db, orders), absent, asOf).intents, orders) == OrderDiscrepancies(db.intents, orders)
  {
    hide ResolveAll, RequeueAll;
    var resolved := ResolveAll(db, orders);
    var after := RequeueAll(resolved, absent, asOf);
    forall k
      ensures (k in after.intents <==> k in db.intents) && (k in db.intents ==> after.intents[k].filled == db.intents[k].filled)
    {
      ResolveKeepsFills(db, orders, k);
      RequeuedKeys(resolved, absent, asOf);
      if k in db.intents { RequeuedRow(resolved, absent, asOf, k); }
    }
  }

  lemma FindingsJoin(
    local: map<ClientOrderKey, IntentRow>, caughtUp: Tables, snapshot: BrokerSnapshot, orders: map<ClientOrderKey, BrokerOrderTruth>,
    found: set<Discrepancy>)
    requires orders == ByKey(snapshot.orders)
    requires found == (OrderDiscrepancies(caughtUp.intents, orders) + MissingOrders(local, orders))
                      + (PositionDiscrepancies(caughtUp.intents, snapshot.positions) + ProtectionDiscrepancies(caughtUp.intents, snapshot)
                         + CashDiscrepancies(caughtUp, snapshot) + FieldDiscrepancies(SetBaseline(caughtUp, snapshot), snapshot) + NakedExposures(snapshot))
    ensures found == Findings(local, caughtUp, snapshot)
  {
    hide SetBaseline, PositionDiscrepancies, ProtectionDiscrepancies, CashDiscrepancies, FieldDiscrepancies;
    hide NakedExposures, ByKey;
    hide OrderDiscrepancies, MissingOrders;
  }

  lemma NoPositions(intents: map<ClientOrderKey, IntentRow>)
    ensures forall i :: Sum({}, OrderWeight(FilledOf(intents), i)) == 0
  {
  }

  lemma CoveredIs(snapshot: BrokerSnapshot, order: BrokerOrderTruth, k: ClientOrderKey)
    ensures CoveredQuantity(snapshot, order, k) ==
            if HasChildren(snapshot.protectionOrders, k)
            then Min(ChildQuantity(snapshot.protectionOrders, k, Stop), ChildQuantity(snapshot.protectionOrders, k, Target)) else order.protection
  {
  }

  lemma KeptBaseline(db: Tables, snapshot: BrokerSnapshot)
    requires db.baseline.Some?
    ensures SetBaseline(db, snapshot) == db
  {
  }

  lemma RecordNothing(table: map<Discrepancy, Lifecycle>)
    ensures RecordAll(table, {}) == table
  {
    assert RecordAll(table, {}).Keys == table.Keys;
  }

  lemma SubsetDistinct(found: set<Discrepancy>, some: set<Discrepancy>)
    requires DistinctSubjects(found) && some <= found
    ensures DistinctSubjects(some)
  {
  }

  lemma NoOrdersNoDiscrepancies(intents: map<ClientOrderKey, IntentRow>)
    ensures OrderDiscrepancies(intents, map[]) == {}
  {
  }

  lemma NothingLocal(orders: map<ClientOrderKey, BrokerOrderTruth>)
    ensures AbsentUnknown(map[], orders) == {} && MissingOrders(map[], orders) == {}
  {
  }

  lemma AbsentStays(local: map<ClientOrderKey, IntentRow>, orders: map<ClientOrderKey, BrokerOrderTruth>, k: ClientOrderKey)
    requires k in local && local[k].status == SubmissionUnknown && k !in orders
    ensures k in AbsentUnknown(local, orders)
  {
  }

  lemma LocalMore(local: map<ClientOrderKey, IntentRow>, orders: map<ClientOrderKey, BrokerOrderTruth>, done: set<ClientOrderKey>, k: ClientOrderKey)
    requires k in local && k !in done
    ensures k !in AbsentUnknown(Restrict(local, done), orders)
    ensures AbsentUnknown(Restrict(local, done + {k}), orders) ==
            if local[k].status == SubmissionUnknown && k !in orders then AbsentUnknown(Restrict(local, done), orders) + {k}
            else AbsentUnknown(Restrict(local, done), orders)
    ensures MissingOrders(Restrict(local, done + {k}), orders) ==
            if ActiveLocal(local[k].status) && local[k].status != SubmissionUnknown && k !in orders
            then MissingOrders(Restrict(local, done), orders) + {LocalOrderMissing(k, local[k].status)}
            else MissingOrders(Restrict(local, done), orders)
  {
  }

  lemma RequeueRefuses(db: Tables, k: ClientOrderKey, asOf: Time)
    ensures var r := RequeueUnknown(db, k, asOf);
            && (r.result.Err? <==> TooOld(db, k, asOf)) && (r.result.Err? ==> r.result.error == SnapshotNotNewer && r.db == db)
            && r.db.gate == db.gate
  {
  }

  /* ---------- The discrepancy table after a run ---------- */

  /** Whatever rows the table held before, open, superseded or resolved: after a run the open rows are exactly
      what it found, and no two of them have the same kind and entity. */
  lemma OpenRowsAreTheReport(db: Tables, snapshot: BrokerSnapshot, at: Time)
    requires Reconcile(db, snapshot, at).Ok?
    ensures var (after, report) := Reconcile(db, snapshot, at).value;
            && OpenRows(after.discrepancies) == report.discrepancies && DistinctSubjects(OpenRows(after.discrepancies))
            && db.discrepancies.Keys <= after.discrepancies.Keys
  {
    hide CaughtUp, Findings, OpenTicket, RecoverClaimed, ByKey, Lifecycles, OpenRows, StatusOf, SubjectOf, Unfreeze;
    var started := db.(gate := OpenTicket(db.gate, ReconciliationInProgress, ReconcilerSource, Blocking, at, false).value,
                       runs := db.runs[RunId(snapshot.asOf, at) := Running]);
    var caughtUp := CaughtUp(started, snapshot).value;
    var found := Findings(RecoverClaimed(started, started.outbox.Keys).intents, caughtUp, snapshot);
    FindingsAreDistinct(RecoverClaimed(started, started.outbox.Keys).intents, caughtUp, snapshot);
    OpenRowsAreFindings(SetBaseline(caughtUp, snapshot).discrepancies, found);
    CaughtUpKeepsReports(started, snapshot);
  }

  lemma {:induction false} IngestKnownKeepsReports(db: Tables, events: seq<BrokerEvent>)
    ensures SameFrame(db, IngestKnown(db, events).db)
  {
    hide SameFrame, Ingest;
    SameFrameReflexive(db);
    if events != [] {
      var rest := events[..|events| - 1];
      IngestKnownKeepsReports(db, rest);
      var before := IngestKnown(db, rest);
      if before.result.Ok? && events[|events| - 1].Key() in before.db.intents {
        KnownFrame(before.db, events[|events| - 1]);
        SameFrameTransitive(db, before.db, Ingest(before.db, events[|events| - 1]).db);
      }
    }
  }

  lemma CaughtUpKeepsReports(db: Tables, snapshot: BrokerSnapshot)
    ensures var r := CaughtUp(db, snapshot); r.Ok? ==> r.value.discrepancies == db.discrepancies
  {
    hide RecoverClaimed, ResolveAll, RequeueAll, IngestKnown, ByKey, AbsentUnknown, TooOld;
    var recovered := RecoverClaimed(db, db.outbox.Keys);
    RecoverWrites(db, db.outbox.Keys);
    IngestKnownKeepsReports(recovered, snapshot.events);
    var ingested := IngestKnown(recovered, snapshot.events).db;
    var orders := ByKey(snapshot.orders);
    ResolveAllWrites(ingested, orders);
    RequeueAllWrites(ResolveAll(ingested, orders), AbsentUnknown(recovered.intents, orders), snapshot.asOf);
  }
}

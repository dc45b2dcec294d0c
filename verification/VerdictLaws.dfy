/** The verdict of a reconciliation, for every store and every complete snapshot: what is found, which status that gives and
    what it does to the freeze, stated on the tables and the snapshot. */
module VerdictLaws {
  import opened AuthoritativeReconciliation
  import opened BrokerModel
  import opened ControlModels
  import opened ControlTables
  import opened Convergence
  import opened ExecutionSystem
  import opened FreezeGate
  import opened FreezeTheorems
  import opened Ledger
  import opened ReconciliationModel
  import opened StoreInvariants
  import opened StoreRuns
  import opened Sums
  import opened SystemInvariants
  import opened SystemTheorems

  /* ---------- What counts as found ---------- */

  /** No later order of the snapshot carries the same key. */
  predicate IsLast(orders: seq<BrokerOrderTruth>, i: nat)
    requires i < |orders|
  {
    forall j :: i < j < |orders| ==> orders[j].key != orders[i].key
  }

  predicate Listed(orders: seq<BrokerOrderTruth>, k: ClientOrderKey) { exists i :: 0 <= i < |orders| && orders[i].key == k }

  /** The store has given the command to a worker, and nobody knows yet how that ended. */
  predicate InFlight(db: Tables, k: ClientOrderKey) {
    k in db.outbox && k in db.intents && db.outbox[k].status == OutboxStatus.Claimed && db.outbox[k].intent.id == db.intents[k].intent.id
  }

  /** The store believes that the broker has the order, and the broker does not. */
  predicate Missing(db: Tables, s: BrokerSnapshot, k: ClientOrderKey) {
    && k in db.intents && db.intents[k].status in {Submitting, Acknowledged, PartiallyFilled} && !InFlight(db, k)
    && !Listed(s.orders, k)
  }

  predicate ActiveChild(s: BrokerSnapshot, i: nat, k: ClientOrderKey) {
    i < |s.protectionOrders| && s.protectionOrders[i].parent == k && s.protectionOrders[i].active
  }

  /** What protects an order: its active children, as far as both stops and targets reach, or without any the quantity
      that the order itself reports. */
  function CoverOf(s: BrokerSnapshot, order: BrokerOrderTruth): int {
    if exists i :: 0 <= i < |s.protectionOrders| && ActiveChild(s, i, order.key) then
      var stops := ChildQuantity(s.protectionOrders, order.key, Stop);
      var targets := ChildQuantity(s.protectionOrders, order.key, Target);
      if stops <= targets then stops else targets
    else order.protection
  }

  function At(m: map<Instrument, int>, i: Instrument): int { if i in m then m[i] else 0 }

  predicate OffByMoreThanACent(a: int, b: int) { a - b > 10_000 || b - a > 10_000 }

  ghost predicate BrokerOnly(intents: map<ClientOrderKey, IntentRow>, orders: seq<BrokerOrderTruth>, k: ClientOrderKey, id: nat) {
    k !in intents && exists i :: 0 <= i < |orders| && IsLast(orders, i) && orders[i].key == k && orders[i].brokerOrderId == id
  }

  ghost predicate FillDiffers(intents: map<ClientOrderKey, IntentRow>, orders: seq<BrokerOrderTruth>, k: ClientOrderKey, local: int, broker: int) {
    && k in intents && intents[k].filled == local && local != broker
    && exists i :: 0 <= i < |orders| && IsLast(orders, i) && orders[i].key == k && orders[i].filled == broker
  }

  ghost predicate Short(intents: map<ClientOrderKey, IntentRow>, s: BrokerSnapshot, k: ClientOrderKey, filled: nat, covered: int) {
    && k in intents && intents[k].filled == filled && filled > covered
    && exists i :: 0 <= i < |s.orders| && IsLast(s.orders, i) && s.orders[i].key == k && s.orders[i].side == Buy && CoverOf(s, s.orders[i]) == covered
  }

  /** What a run has to report, given the tables before and after it. */
  ghost predicate Found(db: Tables, after: Tables, s: BrokerSnapshot, d: Discrepancy) {
    match d
    case BrokerOnlyOrder(k, id) => BrokerOnly(after.intents, s.orders, k, id)
    case FillQuantityMismatch(k, local, broker) => FillDiffers(after.intents, s.orders, k, local, broker)
    case LocalOrderMissing(k, status) => Missing(db, s, k) && db.intents[k].status == status
    case PositionMismatch(i, local, broker) => local == LocalPosition(after.intents, i) && broker == At(s.positions, i) && local != broker
    case ProtectionShortfall(k, filled, covered) => Short(after.intents, s, k, filled, covered)
    case CashMismatch(currency, local, broker) =>
      && db.baseline.Some? && currency == s.baseCurrency && broker == s.cash && OffByMoreThanACent(local, broker)
      && local == db.baseline.value.cash + after.cashDelta - db.baseline.value.projectionCashDelta
    case AccruedCashMismatch(currency, local, broker) =>
      && after.baseline.Some? && after.baseline.value.accruedCash == Some(local) && s.accruedCash == Some(broker)
      && currency == s.baseCurrency && OffByMoreThanACent(local, broker)
    case BaseBalanceMismatch(currency, local, broker) =>
      && currency == s.baseCurrency && currency in s.currencyBalances && s.currencyBalances[currency] == broker
      && local == s.cash && OffByMoreThanACent(local, broker)
    case NakedLongExposure(i, position, covered) =>
      i in s.positions && s.positions[i] == position && At(s.protections, i) == covered && position > covered
    case IncompleteSnapshotFound(_, _) => false
    case ConsensusPendingFound(_, _) => false
  }

  /* ---------- The findings, kind by kind ---------- */

  lemma {:induction false} LastIsKept(orders: seq<BrokerOrderTruth>, i: nat)
    requires i < |orders| && IsLast(orders, i)
    ensures orders[i].key in ByKey(orders) && ByKey(orders)[orders[i].key] == orders[i]
  {
    var n := |orders| - 1;
    if i < n {
      assert orders[..n][i] == orders[i];
      LastIsKept(orders[..n], i);
    }
  }

  lemma {:induction false} KeptIsLast(orders: seq<BrokerOrderTruth>, k: ClientOrderKey) returns (i: nat)
    requires Listed(orders, k)
    ensures i < |orders| && IsLast(orders, i) && orders[i].key == k
  {
    var n := |orders| - 1;
    if orders[n].key == k {
      i := n;
    } else {
      var j :| 0 <= j < |orders| && orders[j].key == k;
      assert orders[..n][j].key == k;
      i := KeptIsLast(orders[..n], k);
    }
  }

  lemma {:induction false} KeptIsListed(orders: seq<BrokerOrderTruth>, k: ClientOrderKey)
    requires k in ByKey(orders)
    ensures Listed(orders, k)
  {
    var n := |orders| - 1;
    if orders[n].key != k {
      KeptIsListed(orders[..n], k);
      var j :| 0 <= j < n && orders[..n][j].key == k;
      assert orders[j].key == k;
    }
  }

  /** The order of a key that the run looks at is its last one. */
  lemma KeptExactly(orders: seq<BrokerOrderTruth>, k: ClientOrderKey) returns (i: nat)
    ensures k in ByKey(orders) <==> Listed(orders, k)
    ensures k in ByKey(orders) ==> i < |orders| && IsLast(orders, i) && orders[i].key == k && ByKey(orders)[k] == orders[i]
    ensures forall j :: 0 <= j < |orders| && IsLast(orders, j) && orders[j].key == k ==> k in ByKey(orders) && ByKey(orders)[k] == orders[j]
  {
    hide ByKey, IsLast;
    i := 0;
    if k in ByKey(orders) { KeptIsListed(orders, k); }
    if Listed(orders, k) {
      i := KeptIsLast(orders, k);
      LastIsKept(orders, i);
    }
    forall j | 0 <= j < |orders| && IsLast(orders, j) && orders[j].key == k
      ensures k in ByKey(orders) && ByKey(orders)[k] == orders[j]
    {
      LastIsKept(orders, j);
    }
  }

  lemma BrokerOnlyFound(intents: map<ClientOrderKey, IntentRow>, orders: seq<BrokerOrderTruth>, k: ClientOrderKey, id: nat)
    ensures BrokerOnlyOrder(k, id) in OrderDiscrepancies(intents, ByKey(orders)) <==> BrokerOnly(intents, orders, k, id)
  {
    var i := KeptExactly(orders, k);
    hide ByKey, IsLast, Listed;
  }

  lemma FillFound(intents: map<ClientOrderKey, IntentRow>, orders: seq<BrokerOrderTruth>, k: ClientOrderKey, local: int, broker: int)
    ensures FillQuantityMismatch(k, local, broker) in OrderDiscrepancies(intents, ByKey(orders)) <==> FillDiffers(intents, orders, k, local, broker)
  {
    var i := KeptExactly(orders, k);
    hide ByKey, IsLast, Listed;
  }

  lemma ShortFound(intents: map<ClientOrderKey, IntentRow>, s: BrokerSnapshot, k: ClientOrderKey, filled: nat, covered: int)
    ensures ProtectionShortfall(k, filled, covered) in ProtectionDiscrepancies(intents, s) <==> Short(intents, s, k, filled, covered)
  {
    var i := KeptExactly(s.orders, k);
    if k in ByKey(s.orders) { CoverExactly(s, s.orders[i]); }
    hide ByKey, IsLast, Listed, CoverOf, CoveredQuantity;
  }

  lemma MissingFound(db: Tables, s: BrokerSnapshot, k: ClientOrderKey, status: ExecutionStatus)
    ensures LocalOrderMissing(k, status) in MissingOrders(RecoverClaimed(db, db.outbox.Keys).intents, ByKey(s.orders))
            <==> Missing(db, s, k) && db.intents[k].status == status
  {
    var i := KeptExactly(s.orders, k);
    hide ByKey, IsLast, Listed;
  }

  lemma {:induction false} NoPositionElsewhere(intents: map<ClientOrderKey, IntentRow>, i: Instrument)
    requires i !in LocalInstruments(intents)
    ensures LocalPosition(intents, i) == 0
  {
    SumZero(intents.Keys, OrderWeight(FilledOf(intents), i));
  }

  lemma PositionFound(intents: map<ClientOrderKey, IntentRow>, positions: map<Instrument, int>, i: Instrument, local: int, broker: int)
    ensures PositionMismatch(i, local, broker) in PositionDiscrepancies(intents, positions)
            <==> local == LocalPosition(intents, i) && broker == At(positions, i) && local != broker
  {
    if i !in LocalInstruments(intents) { NoPositionElsewhere(intents, i); }
    hide LocalPosition;
  }

  lemma CashFound(db: Tables, s: BrokerSnapshot, d: Discrepancy)
    ensures d in CashDiscrepancies(db, s) <==>
            && d.CashMismatch? && db.baseline.Some? && d.currency == s.baseCurrency && d.broker == s.cash && OffByMoreThanACent(d.local, d.broker)
            && d.local == db.baseline.value.cash + db.cashDelta - db.baseline.value.projectionCashDelta
  {
  }

  lemma CoverExactly(s: BrokerSnapshot, order: BrokerOrderTruth)
    ensures CoveredQuantity(s, order, order.key) == CoverOf(s, order)
  {
    hide ChildQuantity;
    assert HasChildren(s.protectionOrders, order.key) <==> exists i :: 0 <= i < |s.protectionOrders| && ActiveChild(s, i, order.key) by {
      if HasChildren(s.protectionOrders, order.key) {
        var i :| 0 <= i < |s.protectionOrders| && IsChild(s.protectionOrders[i], order.key);
        assert ActiveChild(s, i, order.key);
      }
      if i :| 0 <= i < |s.protectionOrders| && ActiveChild(s, i, order.key) {
        assert IsChild(s.protectionOrders[i], order.key);
      }
    }
  }

  lemma FieldFound(db: Tables, s: BrokerSnapshot, d: Discrepancy)
    requires db.baseline.Some?
    ensures d in FieldDiscrepancies(db, s) <==>
            || (d.AccruedCashMismatch? && db.baseline.value.accruedCash == Some(d.local) && s.accruedCash == Some(d.broker)
                && d.currency == s.baseCurrency && OffByMoreThanACent(d.local, d.broker))
            || (d.BaseBalanceMismatch? && d.currency == s.baseCurrency && d.currency in s.currencyBalances
                && s.currencyBalances[d.currency] == d.broker && d.local == s.cash && OffByMoreThanACent(d.local, d.broker))
  {
  }

  lemma NakedFound(s: BrokerSnapshot, i: Instrument, position: int, covered: int)
    ensures NakedLongExposure(i, position, covered) in NakedExposures(s)
            <==> i in s.positions && s.positions[i] == position && At(s.protections, i) == covered && position > covered
  {
  }

  /** Each comparison only reports its own kinds. */
  lemma KindsExactly(local: map<ClientOrderKey, IntentRow>, db: Tables, s: BrokerSnapshot, d: Discrepancy)
    ensures d in OrderDiscrepancies(db.intents, ByKey(s.orders)) ==> d.BrokerOnlyOrder? || d.FillQuantityMismatch?
    ensures d in MissingOrders(local, ByKey(s.orders)) ==> d.LocalOrderMissing?
    ensures d in PositionDiscrepancies(db.intents, s.positions) ==> d.PositionMismatch?
    ensures d in ProtectionDiscrepancies(db.intents, s) ==> d.ProtectionShortfall?
    ensures d in CashDiscrepancies(db, s) ==> d.CashMismatch?
    ensures d in FieldDiscrepancies(SetBaseline(db, s), s) ==> d.AccruedCashMismatch? || d.BaseBalanceMismatch?
    ensures d in NakedExposures(s) ==> d.NakedLongExposure?
  {
    hide ByKey, LocalPosition, CoveredQuantity;
  }

  /** What a run leaves of the tables it has caught up with. */
  lemma RunShape(db: Tables, s: BrokerSnapshot, at: Time) returns (caughtUp: Tables)
    requires Reconcile(db, s, at).Ok?
    ensures var (after, report) := Reconcile(db, s, at).value;
            && after.intents == caughtUp.intents && after.cashDelta == caughtUp.cashDelta && caughtUp.baseline == db.baseline
            && after.baseline == SetBaseline(caughtUp, s).baseline
            && report.discrepancies == Findings(RecoverClaimed(db, db.outbox.Keys).intents, caughtUp, s)
  {
    hide OpenTicket, CaughtUp, Findings, Unfreeze, Lifecycles, StatusOf, RecoverClaimed;
    var gate := OpenTicket(db.gate, ReconciliationInProgress, ReconcilerSource, Blocking, at, false).value;
    var started := db.(gate := gate, runs := db.runs[RunId(s.asOf, at) := Running]);
    CaughtUpSetting(started, s);
    caughtUp := CaughtUp(started, s).value;
    SameRecovery(db, started);
    BaselineCarries(caughtUp, s);
  }

  lemma SameRecovery(db: Tables, started: Tables)
    requires started.outbox == db.outbox && started.intents == db.intents
    ensures RecoverClaimed(started, started.outbox.Keys).intents == RecoverClaimed(db, db.outbox.Keys).intents
  {
    forall k
      ensures NeedsRecovery(started, k) <==> NeedsRecovery(db, k)
      ensures Joined(started, k) <==> Joined(db, k)
    {
    }
  }

  /** The findings, exactly: whatever store and snapshot, a run reports precisely what there is to report. */
  lemma FindingsExactly(db: Tables, s: BrokerSnapshot, at: Time, d: Discrepancy)
    requires Reconcile(db, s, at).Ok?
    ensures var (after, report) := Reconcile(db, s, at).value;
            d in report.discrepancies <==> Found(db, after, s, d)
  {
    hide Reconcile, RecoverClaimed, OrderDiscrepancies, MissingOrders, PositionDiscrepancies, ProtectionDiscrepancies, CashDiscrepancies;
    hide FieldDiscrepancies, NakedExposures, ByKey, BrokerOnly, FillDiffers, Short, Missing, LocalPosition;
    var caughtUp := RunShape(db, s, at);
    var local := RecoverClaimed(db, db.outbox.Keys).intents;
    KindsExactly(local, caughtUp, s, d);
    CashFound(caughtUp, s, d);
    FieldFound(SetBaseline(caughtUp, s), s, d);
    match d
    case BrokerOnlyOrder(k, id) => BrokerOnlyFound(caughtUp.intents, s.orders, k, id);
    case FillQuantityMismatch(k, ours, theirs) => FillFound(caughtUp.intents, s.orders, k, ours, theirs);
    case LocalOrderMissing(k, status) => MissingFound(db, s, k, status);
    case PositionMismatch(i, ours, theirs) => PositionFound(caughtUp.intents, s.positions, i, ours, theirs);
    case ProtectionShortfall(k, filled, covered) => ShortFound(caughtUp.intents, s, k, filled, covered);
    case NakedLongExposure(i, position, covered) => NakedFound(s, i, position, covered);
    case _ =>
  }

  /* ---------- The verdict ---------- */

  /** A broker order has no intent. */
  ghost predicate HasBrokerOnly(after: Tables, s: BrokerSnapshot) { exists i :: 0 <= i < |s.orders| && s.orders[i].key !in after.intents }

  /** A caught-up fill differs. */
  ghost predicate HasFillDifference(after: Tables, s: BrokerSnapshot) {
    exists i :: 0 <= i < |s.orders| && IsLast(s.orders, i) && s.orders[i].key in after.intents
                && after.intents[s.orders[i].key].filled != s.orders[i].filled
  }

  /** A live order of the store is not at the broker. */
  ghost predicate HasMissing(db: Tables, s: BrokerSnapshot) { exists k :: k in db.intents && Missing(db, s, k) }

  /** A position differs. */
  ghost predicate HasPositionDifference(after: Tables, s: BrokerSnapshot) {
    exists i: Instrument :: LocalPosition(after.intents, i) != At(s.positions, i)
  }

  /** A buy has filled more than protects it. */
  ghost predicate HasShortfall(after: Tables, s: BrokerSnapshot) {
    exists i :: 0 <= i < |s.orders| && IsLast(s.orders, i) && s.orders[i].side == Buy && s.orders[i].key in after.intents
                && after.intents[s.orders[i].key].filled > CoverOf(s, s.orders[i])
  }

  /** Cash is off by more than a cent. */
  predicate CashIsOff(db: Tables, after: Tables, s: BrokerSnapshot) {
    db.baseline.Some? && OffByMoreThanACent(db.baseline.value.cash + after.cashDelta - db.baseline.value.projectionCashDelta, s.cash)
  }

  /** A long position is larger than what protects it. */
  ghost predicate HasNaked(s: BrokerSnapshot) { exists i :: i in s.positions && s.positions[i] > At(s.protections, i) }

  ghost predicate Blocks(db: Tables, after: Tables, s: BrokerSnapshot) {
    || HasBrokerOnly(after, s) || HasFillDifference(after, s) || HasMissing(db, s) || HasPositionDifference(after, s)
    || HasShortfall(after, s) || CashIsOff(db, after, s) || HasNaked(s)
  }

  /** The accrued cash or the balance of the base currency is off by more than a cent. */
  predicate Warns(after: Tables, s: BrokerSnapshot) {
    || (after.baseline.Some? && after.baseline.value.accruedCash.Some? && s.accruedCash.Some?
        && OffByMoreThanACent(after.baseline.value.accruedCash.value, s.accruedCash.value))
    || (s.baseCurrency in s.currencyBalances && OffByMoreThanACent(s.cash, s.currencyBalances[s.baseCurrency]))
  }

  predicate IsWarning(d: Discrepancy) { d.AccruedCashMismatch? || d.BaseBalanceMismatch? }

  lemma BlocksIsFound(db: Tables, after: Tables, s: BrokerSnapshot) returns (d: Discrepancy)
    requires Blocks(db, after, s)
    ensures Found(db, after, s, d) && !IsWarning(d)
  {
    hide IsLast, LocalPosition, Missing, Listed, CoverOf;
    if HasBrokerOnly(after, s) {
      var j :| 0 <= j < |s.orders| && s.orders[j].key !in after.intents;
      ListedAt(s.orders, j);
      var i := KeptIsLast(s.orders, s.orders[j].key);
      d := BrokerOnlyOrder(s.orders[i].key, s.orders[i].brokerOrderId);
    } else if HasFillDifference(after, s) {
      var i :| 0 <= i < |s.orders| && IsLast(s.orders, i) && s.orders[i].key in after.intents
               && after.intents[s.orders[i].key].filled != s.orders[i].filled;
      d := FillQuantityMismatch(s.orders[i].key, after.intents[s.orders[i].key].filled, s.orders[i].filled);
    } else if HasMissing(db, s) {
      var k :| k in db.intents && Missing(db, s, k);
      d := LocalOrderMissing(k, db.intents[k].status);
    } else if HasPositionDifference(after, s) {
      var i: Instrument :| LocalPosition(after.intents, i) != At(s.positions, i);
      d := PositionMismatch(i, LocalPosition(after.intents, i), At(s.positions, i));
    } else if HasShortfall(after, s) {
      var i :| 0 <= i < |s.orders| && IsLast(s.orders, i) && s.orders[i].side == Buy && s.orders[i].key in after.intents
               && after.intents[s.orders[i].key].filled > CoverOf(s, s.orders[i]);
      d := ProtectionShortfall(s.orders[i].key, after.intents[s.orders[i].key].filled, CoverOf(s, s.orders[i]));
    } else if CashIsOff(db, after, s) {
      d := CashMismatch(s.baseCurrency, db.baseline.value.cash + after.cashDelta - db.baseline.value.projectionCashDelta, s.cash);
    } else {
      var i :| i in s.positions && s.positions[i] > At(s.protections, i);
      d := NakedLongExposure(i, s.positions[i], At(s.protections, i));
    }
  }

  lemma ListedAt(orders: seq<BrokerOrderTruth>, j: nat)
    requires j < |orders|
    ensures Listed(orders, orders[j].key)
  {
  }

  lemma FoundBlocks(db: Tables, after: Tables, s: BrokerSnapshot, d: Discrepancy)
    requires Found(db, after, s, d)
    ensures if IsWarning(d) then Warns(after, s) else Blocks(db, after, s)
  {
    hide IsLast, LocalPosition, Listed, CoverOf;
    match d
    case LocalOrderMissing(k, _) => assert k in db.intents && Missing(db, s, k);
    case PositionMismatch(i, _, _) => assert LocalPosition(after.intents, i) != At(s.positions, i);
    case NakedLongExposure(i, _, _) => assert s.positions[i] > At(s.protections, i);
    case _ =>
  }

  lemma WarnsIsFound(db: Tables, after: Tables, s: BrokerSnapshot) returns (d: Discrepancy)
    requires Warns(after, s)
    ensures Found(db, after, s, d) && IsWarning(d)
  {
    if s.baseCurrency in s.currencyBalances && OffByMoreThanACent(s.cash, s.currencyBalances[s.baseCurrency]) {
      d := BaseBalanceMismatch(s.baseCurrency, s.cash, s.currencyBalances[s.baseCurrency]);
    } else {
      d := AccruedCashMismatch(s.baseCurrency, after.baseline.value.accruedCash.value, s.accruedCash.value);
    }
  }

  /** An open ticket that a converged reconciliation does not resolve. */
  predicate OpenElsewhere(t: Ticket) {
    && !t.resolved && t.severity == Blocking
    && !(t.reason == StartupReconciliation && t.source == TicketSource.System)
    && !(t.source == ReconcilerSource
         && t.reason in {ReconciliationInProgress, CriticalDiscrepancy, IncompleteBrokerSnapshot, ConsensusPending})
  }

  lemma StatusExactly(found: set<Discrepancy>)
    requires forall d :: d in found ==> !d.IncompleteSnapshotFound? && !d.ConsensusPendingFound?
    ensures StatusOf(found) == Blocked <==> exists d :: d in found && !IsWarning(d)
    ensures StatusOf(found) == Degraded <==> found != {} && forall d :: d in found ==> IsWarning(d)
    ensures StatusOf(found) == Converged <==> found == {}
    ensures StatusOf(found) in {Blocked, Degraded, Converged}
  {
  }

  /** The verdict, exactly, for every store and every complete snapshot. A run is blocked if and only if something is
      wrong with an order, a fill, a position, the protection or the cash; degraded if and only if only an account field
      is off; and converged otherwise. */
  lemma VerdictExactly(db: Tables, s: BrokerSnapshot, at: Time)
    requires Reconcile(db, s, at).Ok?
    ensures var (after, report) := Reconcile(db, s, at).value;
            && (report.status == Blocked <==> Blocks(db, after, s))
            && (report.status == Degraded <==> !Blocks(db, after, s) && Warns(after, s))
            && (report.status == Converged <==> !Blocks(db, after, s) && !Warns(after, s))
            && (report.frozen <==> Blocks(db, after, s))
  {
    hide Reconcile, Found, Blocks, Warns, IsWarning, StatusOf;
    var (after, report) := Reconcile(db, s, at).value;
    ReportShape(db, s, at);
    forall d
      ensures d in report.discrepancies <==> Found(db, after, s, d)
      ensures d in report.discrepancies ==> !d.IncompleteSnapshotFound? && !d.ConsensusPendingFound?
    {
      FindingsExactly(db, s, at, d);
      if Found(db, after, s, d) { NeverFound(db, after, s, d); }
    }
    StatusExactly(report.discrepancies);
    if Blocks(db, after, s) { var d := BlocksIsFound(db, after, s); }
    if Warns(after, s) { var d := WarnsIsFound(db, after, s); }
    forall d | d in report.discrepancies
      ensures if IsWarning(d) then Warns(after, s) else Blocks(db, after, s)
    {
      FoundBlocks(db, after, s, d);
    }
  }

  lemma NeverFound(db: Tables, after: Tables, s: BrokerSnapshot, d: Discrepancy)
    requires Found(db, after, s, d)
    ensures !d.IncompleteSnapshotFound? && !d.ConsensusPendingFound?
  {
    hide BrokerOnly, FillDiffers, Missing, Short;
  }

  lemma ReportShape(db: Tables, s: BrokerSnapshot, at: Time)
    requires Reconcile(db, s, at).Ok?
    ensures var report := Reconcile(db, s, at).value.1;
            report.status == StatusOf(report.discrepancies) && (report.frozen <==> report.status == Blocked)
  {
    hide OpenTicket, CaughtUp, Findings, Unfreeze, Lifecycles, StatusOf, RecoverClaimed, SetBaseline;
  }

  /* ---------- The freeze ---------- */

  lemma ElsewhereExactly(t: Ticket)
    ensures OpenOutsideReconciliation(t) <==> OpenElsewhere(t)
  {
    var pairs := RECONCILIATION_TICKETS;
    assert pairs[0] == (StartupReconciliation, TicketSource.System) && pairs[1] == (ReconciliationInProgress, ReconcilerSource);
    assert pairs[2] == (CriticalDiscrepancy, ReconcilerSource) && pairs[3] == (IncompleteBrokerSnapshot, ReconcilerSource);
    assert pairs[4] == (ConsensusPending, ReconcilerSource) && |pairs| == 5;
  }

  /** What the end of a run makes of the gate that its start left. */
  lemma RunGate(db: Tables, s: BrokerSnapshot, at: Time) returns (started: Gate)
    requires Reconcile(db, s, at).Ok?
    ensures OpenTicket(db.gate, ReconciliationInProgress, ReconcilerSource, Blocking, at, false) == Ok(started)
    ensures var (after, report) := Reconcile(db, s, at).value;
            if report.status == Blocked then OpenTicket(started, CriticalDiscrepancy, ReconcilerSource, Blocking, at, false) == Ok(after.gate)
            else after.gate == Unfreeze(started)
  {
    hide OpenTicket, CaughtUp, Findings, Unfreeze, Lifecycles, StatusOf, RecoverClaimed, SetBaseline;
    started := OpenTicket(db.gate, ReconciliationInProgress, ReconcilerSource, Blocking, at, false).value;
    var begun := db.(gate := started, runs := db.runs[RunId(s.asOf, at) := Running]);
    CaughtUpSetting(begun, s);
    BaselineCarries(CaughtUp(begun, s).value, s);
  }

  lemma OpenedIsOpen(gate: Gate, reason: FreezeReason, at: Time)
    ensures var r := OpenTicket(gate, reason, ReconcilerSource, Blocking, at, false); r.Ok? ==> HasUnresolved(r.value.tickets, reason, ReconcilerSource)
    ensures var r := OpenTicket(gate, reason, ReconcilerSource, Blocking, at, false);
            r.Ok? ==> forall other :: other != reason ==>
              (HasUnresolved(r.value.tickets, other, ReconcilerSource) <==> HasUnresolved(gate.tickets, other, ReconcilerSource))
  {
    var r := OpenTicket(gate, reason, ReconcilerSource, Blocking, at, false);
    if r.Ok? && !HasUnresolved(gate.tickets, reason, ReconcilerSource) {
      var id := TicketDigest(reason, ReconcilerSource, at);
      assert id in r.value.tickets && !r.value.tickets[id].resolved;
      forall other | other != reason && HasUnresolved(gate.tickets, other, ReconcilerSource)
        ensures HasUnresolved(r.value.tickets, other, ReconcilerSource)
      {
        var j :| j in gate.tickets && !gate.tickets[j].resolved && gate.tickets[j].reason == other && gate.tickets[j].source == ReconcilerSource;
        assert j in r.value.tickets && r.value.tickets[j] == gate.tickets[j];
      }
    }
  }

  /** The freeze, exactly, for every store and every complete snapshot. A blocked run leaves its critical ticket open, and
      the store frozen if it was frozen or had no such ticket, or none of a running reconciliation, open before. Any other
      run leaves the store frozen if and only if a blocking ticket was open that no reconciliation resolves. */
  lemma FreezeExactly(db: Tables, s: BrokerSnapshot, at: Time)
    requires Reconcile(db, s, at).Ok?
    ensures var (after, _) := Reconcile(db, s, at).value;
            if Blocks(db, after, s) then
              && HasUnresolved(after.gate.tickets, CriticalDiscrepancy, ReconcilerSource)
              && (after.gate.frozen <==>
                    || db.gate.frozen || !HasUnresolved(db.gate.tickets, ReconciliationInProgress, ReconcilerSource)
                    || !HasUnresolved(db.gate.tickets, CriticalDiscrepancy, ReconcilerSource))
            else after.gate.frozen <==> exists id :: id in db.gate.tickets && OpenElsewhere(db.gate.tickets[id])
  {
    hide Reconcile, Blocks, OpenTicket, Unfreeze, HasUnresolved, OpenElsewhere, OpenOutsideReconciliation;
    VerdictExactly(db, s, at);
    var started := RunGate(db, s, at);
    OpenBlockingFreezes(db.gate, ReconciliationInProgress, ReconcilerSource, at, false);
    OpenedIsOpen(db.gate, ReconciliationInProgress, at);
    OpenBlockingFreezes(started, CriticalDiscrepancy, ReconcilerSource, at, false);
    OpenedIsOpen(started, CriticalDiscrepancy, at);
    UnfreezeOpensExactly(started);
    TicketLeavesOthers(db.gate, at);
    forall t: Ticket
      ensures OpenOutsideReconciliation(t) <==> OpenElsewhere(t)
    {
      ElsewhereExactly(t);
    }
  }

  /** After any run of the system, a reconciliation of any complete snapshot that finds something wrong leaves the store
      frozen. */
  lemma BlockedFreezes(startingCash: Money, moves: seq<Label>, s: BrokerSnapshot, at: Time)
    ensures var db := Run(NewSystem(startingCash), moves).db;
            var r := Reconcile(db, s, at);
            r.Ok? && Blocks(db, r.value.0, s) ==> r.value.0.gate.frozen && r.value.1.frozen
  {
    hide Run, SystemInv, InStep, StoreInv, BrokerInv, StatusesBacked, NewSystem, Reconcile, Blocks, GateInv, SourcesBlock;
    RunKeeps(startingCash, moves);
    var t := Run(NewSystem(startingCash), moves);
    BrokerOf(t, startingCash);
    StoreRuns.SoundGate(t.db);
    RunKeepsSources(startingCash, moves);
    ReconcileGate(t.db, s, at);
    if Reconcile(t.db, s, at).Ok? { VerdictExactly(t.db, s, at); }
  }

  /* ---------- What protects, and what is kept of earlier findings ---------- */

  /** What one child adds to the stops or the targets of an order. */
  ghost function ChildWeight(children: seq<BrokerProtectionTruth>, k: ClientOrderKey, kind: ProtectionType): int -> int {
    (i: int) =>
      if 0 <= i < |children| && children[i].parent == k && children[i].active && children[i].kind == kind then children[i].quantity else 0
  }

  function Indices(n: nat): (r: set<int>)
    ensures forall i :: i in r <==> 0 <= i < n
  {
    if n == 0 then {} else Indices(n - 1) + {n - 1}
  }

  /** Stops and targets are the sums over the active children of the order. */
  lemma {:induction false} ChildrenExactly(children: seq<BrokerProtectionTruth>, k: ClientOrderKey, kind: ProtectionType)
    ensures ChildQuantity(children, k, kind) == Sum(Indices(|children|), ChildWeight(children, k, kind))
  {
    if children != [] {
      var n := |children| - 1;
      var front := children[..n];
      ChildrenExactly(front, k, kind);
      SumInsert(Indices(n), ChildWeight(children, k, kind), n);
      SumCongruence(Indices(n), ChildWeight(children, k, kind), ChildWeight(front, k, kind));
    }
  }

  /** Two findings of one kind about one entity, whatever their details. */
  predicate SameThing(c: Discrepancy, d: Discrepancy) {
    || (c.IncompleteSnapshotFound? && d.IncompleteSnapshotFound? && c.certificate == d.certificate)
    || (c.ConsensusPendingFound? && d.ConsensusPendingFound? && c.scope == d.scope)
    || (c.BrokerOnlyOrder? && d.BrokerOnlyOrder? && c.key == d.key)
    || (c.FillQuantityMismatch? && d.FillQuantityMismatch? && c.key == d.key)
    || (c.LocalOrderMissing? && d.LocalOrderMissing? && c.key == d.key)
    || (c.PositionMismatch? && d.PositionMismatch? && c.instrument == d.instrument)
    || (c.ProtectionShortfall? && d.ProtectionShortfall? && c.key == d.key)
    || (c.CashMismatch? && d.CashMismatch? && c.currency == d.currency)
    || (c.AccruedCashMismatch? && d.AccruedCashMismatch? && c.currency == d.currency)
    || (c.BaseBalanceMismatch? && d.BaseBalanceMismatch? && c.currency == d.currency)
    || (c.NakedLongExposure? && d.NakedLongExposure? && c.instrument == d.instrument)
  }

  lemma SubjectExactly(c: Discrepancy, d: Discrepancy)
    ensures SubjectOf(c) == SubjectOf(d) <==> SameThing(c, d)
  {
  }

  ghost predicate FoundAgain(found: set<Discrepancy>, x: Discrepancy) { exists d :: d in found && SameThing(d, x) }

  /** The discrepancy table after a run, exactly: a finding is open; an open row that was not found is superseded if the
      run found something else about the same thing and resolved if it did not; every other row is as it was. */
  lemma RowsExactly(db: Tables, s: BrokerSnapshot, at: Time, x: Discrepancy)
    requires Reconcile(db, s, at).Ok?
    ensures var (after, report) := Reconcile(db, s, at).value;
            && (x in after.discrepancies <==> x in db.discrepancies || x in report.discrepancies)
            && (x in report.discrepancies ==> after.discrepancies[x] == OpenRow)
            && (x in db.discrepancies && x !in report.discrepancies ==>
                  after.discrepancies[x] ==
                  if db.discrepancies[x] != OpenRow then db.discrepancies[x]
                  else if FoundAgain(report.discrepancies, x) then SupersededRow else ResolvedRow)
  {
    var (after, report) := Reconcile(db, s, at).value;
    RunWritesRows(db, s, at);
    AgainExactly(report.discrepancies, x);
    LifecycleOf(db.discrepancies, report.discrepancies, x);
    hide *;
  }

  lemma AgainExactly(found: set<Discrepancy>, x: Discrepancy)
    ensures FoundAgain(found, x) <==> exists d :: d in found && SubjectOf(d) == SubjectOf(x)
  {
    forall d
      ensures SubjectOf(d) == SubjectOf(x) <==> SameThing(d, x)
    {
      SubjectExactly(d, x);
    }
    hide SubjectOf, SameThing;
  }

  lemma LifecycleOf(table: map<Discrepancy, Lifecycle>, found: set<Discrepancy>, x: Discrepancy)
    ensures var after := Lifecycles(table, found);
            && (x in after <==> x in table || x in found)
            && (x in found ==> after[x] == OpenRow)
            && (x in table && x !in found ==>
                  after[x] ==
                  if table[x] != OpenRow then table[x]
                  else if exists d :: d in found && SubjectOf(d) == SubjectOf(x) then SupersededRow else ResolvedRow)
  {
    hide SubjectOf;
  }

  lemma RunWritesRows(db: Tables, s: BrokerSnapshot, at: Time)
    requires Reconcile(db, s, at).Ok?
    ensures var (after, report) := Reconcile(db, s, at).value; after.discrepancies == Lifecycles(db.discrepancies, report.discrepancies)
  {
    hide OpenTicket, CaughtUp, Findings, Unfreeze, Lifecycles, StatusOf, RecoverClaimed;
    var gate := OpenTicket(db.gate, ReconciliationInProgress, ReconcilerSource, Blocking, at, false).value;
    var started := db.(gate := gate, runs := db.runs[RunId(s.asOf, at) := Running]);
    CaughtUpSetting(started, s);
    BaselineCarries(CaughtUp(started, s).value, s);
  }
}

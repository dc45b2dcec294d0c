/** What one reconciliation of the store against a broker snapshot does and finds. */
module ReconciliationModel {
  import opened ControlModels
  import opened ControlTables
  import opened FreezeGate
  import opened Ledger
  import opened Sums

  datatype Report = Report(status: RunStatus, discrepancies: set<Discrepancy>, frozen: bool)

  const CENT: Money := 10_000

  /* ---------- Catching up with the broker ---------- */

  /** Ingests, in order, the events whose order is known locally; stops at the first that is refused. */
  function IngestKnown(db: Tables, events: seq<BrokerEvent>): Outcome<()> {
    if events == [] then Outcome(db, Ok(()))
    else
      var before := IngestKnown(db, events[..|events| - 1]);
      var e := events[|events| - 1];
      if before.result.Err? || e.Key() !in before.db.intents then before
      else
        var r := Ingest(before.db, e);
        Outcome(r.db, if r.result.Ok? then Ok(()) else Err(r.result.error))
  }

  /** The broker's orders by client order key; a later order replaces an earlier one. */
  function ByKey(orders: seq<BrokerOrderTruth>): map<ClientOrderKey, BrokerOrderTruth> {
    if orders == [] then map[]
    else ByKey(orders[..|orders| - 1])[orders[|orders| - 1].key := orders[|orders| - 1]]
  }

  predicate Resolves(db: Tables, orders: map<ClientOrderKey, BrokerOrderTruth>, k: ClientOrderKey) {
    k in orders && k in db.intents && Unresolved(db, k)
  }

  /** Every unknown command whose order the broker has was delivered. */
  function ResolveAll(db: Tables, orders: map<ClientOrderKey, BrokerOrderTruth>): Tables {
    db.(
      outbox := map k | k in db.outbox ::
        if Resolves(db, orders, k) then db.outbox[k].(status := Delivered) else db.outbox[k],
      intents := map k | k in db.intents ::
        if Resolves(db, orders, k) && Joined(db, k) && db.intents[k].status == SubmissionUnknown
        then Bump(db.intents[k], Acknowledged).(brokerOrderId := Some(orders[k].brokerOrderId)) else db.intents[k],
      notes := db.notes + set k | k in db.outbox && Resolves(db, orders, k) ::
        OrderNote(db.outbox[k].intent.id, BrokerOrderDiscovered(orders[k].brokerOrderId)))
  }

  /** The keys that were unknown when the run looked and that the broker does not have. */
  function AbsentUnknown(local: map<ClientOrderKey, IntentRow>, orders: map<ClientOrderKey, BrokerOrderTruth>): set<ClientOrderKey> {
    set k | k in local && local[k].status == SubmissionUnknown && k !in orders
  }

  function RequeueAll(db: Tables, keys: set<ClientOrderKey>, asOf: Time): Tables {
    db.(
      outbox := map k | k in db.outbox ::
        if k in keys && Unresolved(db, k) then db.outbox[k].(status := Pending, fencingToken := None, claimedAt := None) else db.outbox[k],
      intents := map k | k in db.intents ::
        if k in keys && Unresolved(db, k) && Joined(db, k) then Bump(db.intents[k], Outboxed) else db.intents[k],
      notes := db.notes + set k | k in db.outbox && k in keys && Unresolved(db, k) ::
        OrderNote(db.outbox[k].intent.id, RequeuedAfterBrokerAbsence(asOf)))
  }

  /* ---------- What may differ ---------- */

  predicate ActiveLocal(status: ExecutionStatus) {
    status == Submitting || status == SubmissionUnknown || status == Acknowledged || status == PartiallyFilled
  }

  function OrderDiscrepancies(intents: map<ClientOrderKey, IntentRow>, orders: map<ClientOrderKey, BrokerOrderTruth>): set<Discrepancy> {
    (set k | k in orders && k !in intents :: BrokerOnlyOrder(k, orders[k].brokerOrderId))
    + (set k | k in orders && k in intents && intents[k].filled != orders[k].filled ::
         FillQuantityMismatch(k, intents[k].filled, orders[k].filled))
  }

  function MissingOrders(local: map<ClientOrderKey, IntentRow>, orders: map<ClientOrderKey, BrokerOrderTruth>): set<Discrepancy> {
    set k | k in local && k !in orders && ActiveLocal(local[k].status) && local[k].status != SubmissionUnknown ::
      LocalOrderMissing(k, local[k].status)
  }

  ghost function FilledOf(intents: map<ClientOrderKey, IntentRow>): ClientOrderKey -> int {
    (k: ClientOrderKey) => if k in intents then intents[k].filled else 0
  }

  /** The position the local intents add up to. */
  ghost function LocalPosition(intents: map<ClientOrderKey, IntentRow>, i: Instrument): int {
    Sum(intents.Keys, OrderWeight(FilledOf(intents), i))
  }

  function LocalInstruments(intents: map<ClientOrderKey, IntentRow>): set<Instrument> {
    set k | k in intents :: k.instrument
  }

  ghost function PositionDiscrepancies(intents: map<ClientOrderKey, IntentRow>, positions: map<Instrument, int>): set<Discrepancy> {
    set i | i in LocalInstruments(intents) + positions.Keys && LocalPosition(intents, i) != Lookup(positions, i, 0) ::
      PositionMismatch(i, LocalPosition(intents, i), Lookup(positions, i, 0))
  }

  predicate IsChild(child: BrokerProtectionTruth, k: ClientOrderKey) { child.parent == k && child.active }

  function HasChildren(children: seq<BrokerProtectionTruth>, k: ClientOrderKey): bool {
    exists i :: 0 <= i < |children| && IsChild(children[i], k)
  }

  function ChildQuantity(children: seq<BrokerProtectionTruth>, k: ClientOrderKey, kind: ProtectionType): nat {
    if children == [] then 0
    else
      var last := children[|children| - 1];
      ChildQuantity(children[..|children| - 1], k, kind) + if IsChild(last, k) && last.kind == kind then last.quantity else 0
  }

  /** An order is covered by the smaller of its stop and target children, or as the order itself says. */
  function CoveredQuantity(snapshot: BrokerSnapshot, order: BrokerOrderTruth, k: ClientOrderKey): nat {
    if HasChildren(snapshot.protectionOrders, k)
    then Min(ChildQuantity(snapshot.protectionOrders, k, Stop), ChildQuantity(snapshot.protectionOrders, k, Target))
    else order.protection
  }

  function ProtectionDiscrepancies(intents: map<ClientOrderKey, IntentRow>, snapshot: BrokerSnapshot): set<Discrepancy> {
    var orders := ByKey(snapshot.orders);
    set k | k in orders && k in intents && orders[k].side == Buy && intents[k].filled > CoveredQuantity(snapshot, orders[k], k) ::
      ProtectionShortfall(k, intents[k].filled, CoveredQuantity(snapshot, orders[k], k))
  }

  function CashDiscrepancies(db: Tables, snapshot: BrokerSnapshot): set<Discrepancy> {
    match ExpectedCash(db)
    case None => {}
    case Some(expected) =>
      if Abs(expected - snapshot.cash) > CENT then {CashMismatch(snapshot.baseCurrency, expected, snapshot.cash)} else {}
  }

  /** Warnings about account fields, judged once a baseline exists. */
  function FieldDiscrepancies(db: Tables, snapshot: BrokerSnapshot): set<Discrepancy> {
    if db.baseline.None? then {}
    else
      var currency := snapshot.baseCurrency;
      (match (db.baseline.value.accruedCash, snapshot.accruedCash)
       case (Some(expected), Some(actual)) =>
         if Abs(expected - actual) > CENT then {AccruedCashMismatch(currency, expected, actual)} else {}
       case _ => {})
      + (if currency in snapshot.currencyBalances && Abs(snapshot.currencyBalances[currency] - snapshot.cash) > CENT
         then {BaseBalanceMismatch(currency, snapshot.cash, snapshot.currencyBalances[currency])} else {})
  }

  function NakedExposures(snapshot: BrokerSnapshot): set<Discrepancy> {
    set i | i in snapshot.positions && snapshot.positions[i] > Lookup(snapshot.protections, i, 0) ::
      NakedLongExposure(i, snapshot.positions[i], Lookup(snapshot.protections, i, 0))
  }

  predicate Critical(d: Discrepancy) { !d.AccruedCashMismatch? && !d.BaseBalanceMismatch? && !d.ConsensusPendingFound? }

  function StatusOf(found: set<Discrepancy>): RunStatus {
    if exists d :: d in found && Critical(d) then Blocked else if found != {} then Degraded else Converged
  }

  /* ---------- The discrepancy table ---------- */

  datatype Subject =
    | SnapshotSubject(Digest) | ConsensusSubject(Option<Digest>) | BrokerOnlySubject(ClientOrderKey) | FillSubject(ClientOrderKey)
    | MissingSubject(ClientOrderKey) | PositionSubject(Instrument) | ProtectionSubject(ClientOrderKey)
    | CashSubject(Currency) | AccruedSubject(Currency) | BalanceSubject(Currency) | NakedSubject(Instrument)

  /** The kind and the entity of a discrepancy, without its details. */
  function SubjectOf(d: Discrepancy): Subject {
    match d
    case IncompleteSnapshotFound(certificate, _) => SnapshotSubject(certificate)
    case ConsensusPendingFound(scope, _) => ConsensusSubject(scope)
    case BrokerOnlyOrder(k, _) => BrokerOnlySubject(k)
    case FillQuantityMismatch(k, _, _) => FillSubject(k)
    case LocalOrderMissing(k, _) => MissingSubject(k)
    case PositionMismatch(i, _, _) => PositionSubject(i)
    case ProtectionShortfall(k, _, _) => ProtectionSubject(k)
    case CashMismatch(c, _, _) => CashSubject(c)
    case AccruedCashMismatch(c, _, _) => AccruedSubject(c)
    case BaseBalanceMismatch(c, _, _) => BalanceSubject(c)
    case NakedLongExposure(i, _, _) => NakedSubject(i)
  }

  /** Recording one finding supersedes the open rows of its subject and opens its own row. */
  function RecordFinding(table: map<Discrepancy, Lifecycle>, d: Discrepancy): map<Discrepancy, Lifecycle> {
    (map x | x in table ::
       if x != d && SubjectOf(x) == SubjectOf(d) && table[x] == OpenRow then SupersededRow else table[x])[d := OpenRow]
  }

  /** Open rows whose subject this run did not find are resolved. */
  function CloseAbsent(table: map<Discrepancy, Lifecycle>, found: set<Discrepancy>): map<Discrepancy, Lifecycle> {
    map x | x in table ::
      if table[x] == OpenRow && !(exists d :: d in found && SubjectOf(d) == SubjectOf(x)) then ResolvedRow else table[x]
  }

  /** The table after all findings of a run have been recorded. */
  function RecordAll(table: map<Discrepancy, Lifecycle>, found: set<Discrepancy>): map<Discrepancy, Lifecycle> {
    map x | x in table.Keys + found ::
      if x in found then OpenRow
      else if table[x] == OpenRow && exists d :: d in found && SubjectOf(d) == SubjectOf(x) then SupersededRow
      else table[x]
  }

  predicate DistinctSubjects(found: set<Discrepancy>) {
    forall c, d :: c in found && d in found && SubjectOf(c) == SubjectOf(d) ==> c == d
  }

  /** Recording findings one by one, in any order, gives the table of the whole set. */
  lemma RecordOneMore(table: map<Discrepancy, Lifecycle>, done: set<Discrepancy>, d: Discrepancy)
    requires DistinctSubjects(done + {d}) && d !in done
    ensures RecordFinding(RecordAll(table, done), d) == RecordAll(table, done + {d})
  {
    var left, right := RecordFinding(RecordAll(table, done), d), RecordAll(table, done + {d});
    assert left.Keys == right.Keys;
    forall x | x in right
      ensures left[x] == right[x]
    {
      if x in done { assert SubjectOf(x) != SubjectOf(d); }
    }
  }

  ghost function OpenRows(table: map<Discrepancy, Lifecycle>): set<Discrepancy> { set x | x in table && table[x] == OpenRow }

  function Lifecycles(table: map<Discrepancy, Lifecycle>, found: set<Discrepancy>): map<Discrepancy, Lifecycle> {
    CloseAbsent(RecordAll(table, found), found)
  }

  /** Whatever the table held before, the rows left open are exactly this run's findings. */
  lemma OpenRowsAreFindings(table: map<Discrepancy, Lifecycle>, found: set<Discrepancy>)
    ensures OpenRows(Lifecycles(table, found)) == found
    ensures table.Keys <= Lifecycles(table, found).Keys
  {
  }

  /* ---------- One run ---------- */

  /** The store after it has caught up: claimed commands recovered, events ingested, unknowns settled. */
  function CaughtUp(db: Tables, snapshot: BrokerSnapshot): Result<Tables> {
    var recovered := RecoverClaimed(db, db.outbox.Keys);
    var orders := ByKey(snapshot.orders);
    var ingested := IngestKnown(recovered, snapshot.events);
    if ingested.result.Err? then Err(ingested.result.error)
    else
      var resolved := ResolveAll(ingested.db, orders);
      var absent := AbsentUnknown(recovered.intents, orders);
      if exists k :: k in absent && TooOld(resolved, k, snapshot.asOf) then Err(SnapshotNotNewer)
      else Ok(RequeueAll(resolved, absent, snapshot.asOf))
  }

  /** Everything a run finds, once the store has caught up; `local` is what the run saw before ingesting. */
  ghost function Findings(local: map<ClientOrderKey, IntentRow>, caughtUp: Tables, snapshot: BrokerSnapshot): set<Discrepancy> {
    OrderDiscrepancies(caughtUp.intents, ByKey(snapshot.orders))
    + MissingOrders(local, ByKey(snapshot.orders))
    + PositionDiscrepancies(caughtUp.intents, snapshot.positions)
    + ProtectionDiscrepancies(caughtUp.intents, snapshot)
    + CashDiscrepancies(caughtUp, snapshot)
    + FieldDiscrepancies(SetBaseline(caughtUp, snapshot), snapshot)
    + NakedExposures(snapshot)
  }

  /** The tables with the findings of a run written down. */
  function Reported(db: Tables, run: RunId, found: set<Discrepancy>, gate: Gate): Tables {
    db.(discrepancies := Lifecycles(db.discrepancies, found), runs := db.runs[run := StatusOf(found)], gate := gate)
  }

  /** The row of a run that begins, unless the run is already there. */
  function RunStarted(db: Tables, run: RunId): Tables { if run in db.runs then db else db.(runs := db.runs[run := Running]) }

  /** The one transaction that writes the findings and the status of a run, before its ticket or its unfreezing. */
  function RunRecorded(db: Tables, run: RunId, found: set<Discrepancy>): Tables {
    if run in db.runs then Reported(db, run, found, db.gate) else db
  }

  /** Records the findings of a run and freezes or unfreezes the store. */
  ghost function Conclude(db: Tables, run: RunId, found: set<Discrepancy>, at: Time): Result<(Tables, Report)> {
    var status := StatusOf(found);
    var gate :=
      if status == Blocked then OpenTicket(db.gate, CriticalDiscrepancy, ReconcilerSource, Blocking, at, false) else Ok(Unfreeze(db.gate));
    if gate.Err? then Err(gate.error)
    else
      Ok((Reported(db, run, found, gate.value), Report(status, found, status == Blocked)))
  }

  /** A snapshot that is not complete: recorded as such, once, and the store freezes; nothing is compared. */
  function Incomplete(db: Tables, snapshot: BrokerSnapshot, at: Time): Outcome<Report> {
    var run, d := RunId(snapshot.asOf, at), IncompleteSnapshotFound(snapshot.certificate, snapshot.asOf);
    var ticket := OpenTicket(db.gate, IncompleteBrokerSnapshot, ReconcilerSource, Blocking, at, false);
    Outcome(
      db.(
        gate := if ticket.Ok? then ticket.value else db.gate,
        runs := if run in db.runs then db.runs else db.runs[run := IncompleteSnapshot],
        discrepancies := if d in db.discrepancies then db.discrepancies else db.discrepancies[d := OpenRow]),
      if ticket.Ok? then Ok(Report(IncompleteSnapshot, {d}, true)) else Err(ticket.error))
  }

  /** A whole run over a complete snapshot; Err means that it raised somewhere. */
  ghost function Reconcile(db: Tables, snapshot: BrokerSnapshot, at: Time): Result<(Tables, Report)> {
    var run := RunId(snapshot.asOf, at);
    match OpenTicket(db.gate, ReconciliationInProgress, ReconcilerSource, Blocking, at, false)
    case Err(e) => Err(e)
    case Ok(gate) =>
      if run in db.runs then Err(IntegrityError)
      else
        var started := db.(gate := gate, runs := db.runs[run := Running]);
        match CaughtUp(started, snapshot)
        case Err(e) => Err(e)
        case Ok(caughtUp) =>
          Conclude(
            SetBaseline(caughtUp, snapshot), run,
            Findings(RecoverClaimed(started, started.outbox.Keys).intents, caughtUp, snapshot), at)
  }
}

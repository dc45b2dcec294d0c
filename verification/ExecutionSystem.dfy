/** The whole control plane as a state machine: the store, the broker, and workers that may pause or die
    between any two of their steps. Each transaction of the store or the broker is one step, so every
    interleaving of workers, operators, the market, reconciliations and crashes is a sequence of labels. */
module ExecutionSystem {
  import opened BrokerModel
  import opened ControlModels
  import opened ControlTables
  import opened FreezeGate
  import opened ReconciliationModel
  import opened StoreRuns

  /** Where a worker is inside `dispatch_once` or `dispatch_cancel_once`. */
  datatype Phase =
    | Idle
    | SubmitClaimed(intent: ExecutionIntent)
    | SubmitValidated(intent: ExecutionIntent)
    | SubmitAnswered(intent: ExecutionIntent, answer: seq<BrokerEvent>)
    | SubmitDropped(intent: ExecutionIntent)
    | CancelClaimed(intent: ExecutionIntent)
    | CancelValidated(intent: ExecutionIntent)
    | CancelAnswered(intent: ExecutionIntent, answer: seq<BrokerEvent>)
    | CancelDropped(intent: ExecutionIntent)

  datatype Worker = Worker(lease: ExecutionLease, phase: Phase)

  /** A snapshot that somebody has taken and may still be working with: the broker as it was, and its date. */
  datatype Sight = Sight(broker: Broker, asOf: Time)

  /** `tokens` lists the fencing tokens the broker has accepted, oldest first; `held` the snapshots taken. */
  datatype System = System(db: Tables, broker: Broker, workers: map<Name, Worker>, tokens: seq<nat>, held: seq<Sight>)

  datatype Label =
    | StoreStep(op: StoreOp)
    | DeliverEvent(index: nat)
    | ResolveAtBroker(key: ClientOrderKey)
    | TakeSnapshot(asOf: Time)
    | TakeBaseline(sight: nat)
    | StartRun(run: RunId)
    | RecordRun(run: RunId, found: set<Discrepancy>)
    | RunReconciliation(sight: nat, at: Time)
    | QueueScenario(scenario: Scenario)
    | MarketFill(key: ClientOrderKey, quantity: int, price: Price, at: Time)
    | MarketCommission(key: ClientOrderKey, amount: int, at: Time)
    | StartWorker(w: Name, lease: ExecutionLease)
    | CrashWorker(w: Name)
    | WorkerClaim(w: Name, latest: Option<Digest>, at: Time)
    | WorkerValidate(w: Name, at: Time)
    | WorkerSend(w: Name, at: Time)
    | WorkerIngest(w: Name)
    | WorkerFinish(w: Name, reason: Name)
    | WorkerClaimCancel(w: Name, at: Time)

  function NewSystem(startingCash: Money): System { System.System(NEW_TABLES, NewBroker(startingCash), map[], [], []) }

  /** Store transactions that anyone may run at any time with any arguments. The others need evidence of what
      the broker did and have labels of their own. */
  predicate Unguarded(op: StoreOp) {
    match op
    case OpMarkDelivered(_) => false
    case OpResolve(_, _) => false
    case OpIngest(_) => false
    case OpSetBaseline(_) => false
    case OpClaim(_, _, _) => false
    case OpClaimCancel(_, _) => false
    case OpOpenTicket(_, source, severity, _) => severity == Blocking || source.OtherSource?
    case _ => true
  }

  function Dead(s: System, w: Name): System { s.(workers := s.workers - {w}) }

  function At(s: System, w: Name, phase: Phase): System
    requires w in s.workers
  {
    s.(workers := s.workers[w := s.workers[w].(phase := phase)])
  }

  /** The broker has accepted a token. */
  function Fenced(s: System, token: nat): System { s.(tokens := s.tokens + [token]) }

  /** A worker publishes its token when it starts; a stale one never starts. */
  function AfterStart(s: System, w: Name, lease: ExecutionLease): System {
    var r := AdvanceFence(s.broker, lease.fencingToken);
    if r.result.Err? then s
    else System.System(s.db, r.broker, s.workers[w := Worker(lease, Idle)], s.tokens + [lease.fencingToken], s.held)
  }

  ghost function AfterClaim(s: System, w: Name, latest: Option<Digest>, at: Time): System
    requires w in s.workers
  {
    var r := ClaimNext(s.db, s.workers[w].lease, latest, at);
    var after := s.(db := r.db);
    match r.result
    case Err(_) => Dead(after, w)
    case Ok(None) => after
    case Ok(Some(intent)) => At(after, w, SubmitClaimed(intent))
  }

  ghost function AfterClaimCancel(s: System, w: Name, at: Time): System
    requires w in s.workers
  {
    var r := ClaimNextCancel(s.db, s.workers[w].lease, at);
    var after := s.(db := r.db);
    match r.result
    case Err(_) => Dead(after, w)
    case Ok(None) => after
    case Ok(Some(intent)) => At(after, w, CancelClaimed(intent))
  }

  /** An exception kills the worker and leaves its command claimed. */
  function AfterValidate(s: System, w: Name, at: Time): System
    requires w in s.workers
  {
    var worker := s.workers[w];
    if !worker.phase.SubmitClaimed? && !worker.phase.CancelClaimed? then s
    else if !LeaseCurrent(s.db, worker.lease, at) then Dead(s, w)
    else match worker.phase
      case SubmitClaimed(intent) => At(s, w, SubmitValidated(intent))
      case CancelClaimed(intent) => At(s, w, CancelValidated(intent))
      case _ => s
  }

  function AfterSubmit(s: System, w: Name, intent: ExecutionIntent, at: Time): System
    requires w in s.workers
  {
    var token := s.workers[w].lease.fencingToken;
    var r := Submit(s.broker, intent, token, at);
    match r.result
    case Ok(events) => At(Fenced(s.(broker := r.broker), token), w, SubmitAnswered(intent, events))
    case Err(ResponseDropped) => At(Fenced(s.(broker := r.broker), token), w, SubmitDropped(intent))
    case Err(_) => Dead(s, w)
  }

  function AfterCancel(s: System, w: Name, intent: ExecutionIntent, at: Time): System
    requires w in s.workers
  {
    var token := s.workers[w].lease.fencingToken;
    var r := Cancel(s.broker, intent.Key(), token, 0, at);
    match r.result
    case Ok(events) => At(Fenced(s.(broker := r.broker), token), w, CancelAnswered(intent, events))
    case Err(ResponseDropped) => At(Fenced(s.(broker := r.broker), token), w, CancelDropped(intent))
    case Err(_) => Dead(s, w)
  }

  function AfterSend(s: System, w: Name, at: Time): System
    requires w in s.workers
  {
    match s.workers[w].phase
    case SubmitValidated(intent) => AfterSubmit(s, w, intent, at)
    case CancelValidated(intent) => AfterCancel(s, w, intent, at)
    case _ => s
  }

  /** The worker stores the next event of its answer. */
  function AfterIngest(s: System, w: Name): System
    requires w in s.workers
  {
    var phase := s.workers[w].phase;
    if (phase.SubmitAnswered? || phase.CancelAnswered?) && phase.answer != [] then
      var r := Ingest(s.db, phase.answer[0]);
      var after := s.(db := r.db);
      if r.result.Err? then Dead(after, w) else At(after, w, phase.(answer := phase.answer[1..]))
    else s
  }

  /** The worker records how its command ended. */
  function AfterFinish(s: System, w: Name, reason: Name): System
    requires w in s.workers
  {
    match s.workers[w].phase
    case SubmitAnswered(intent, answer) =>
      if answer == [] then At(s.(db := MarkDelivered(s.db, intent.id)), w, Idle) else s
    case SubmitDropped(intent) =>
      var r := MarkSubmissionUnknown(s.db, intent.id, reason);
      if r.result.Err? then Dead(s, w) else At(s.(db := r.db), w, Idle)
    case CancelAnswered(intent, answer) =>
      if answer == [] then At(s.(db := MarkCancelDelivered(s.db, intent.Key())), w, Idle) else s
    case CancelDropped(intent) =>
      var r := MarkCancelUnknown(s.db, intent.Key(), reason);
      if r.result.Err? then Dead(s, w) else At(s.(db := r.db), w, Idle)
    case _ => s
  }

  predicate BrokerListed(b: Broker) { forall k :: k in b.orderKeys ==> k in b.orders }

  function AfterSnapshot(s: System, asOf: Time): System { s.(held := s.held + [Sight(s.broker, asOf)]) }

  predicate InSight(s: System, sight: nat) { sight < |s.held| && BrokerListed(s.held[sight].broker) }

  function SnapshotOf(sight: Sight): BrokerSnapshot
    requires BrokerListed(sight.broker)
  {
    Snapshot(sight.broker, sight.asOf)
  }

  /** A reconciliation in one piece, against a snapshot that may be out of date by now. Its tickets, its row, the
      recovery, every event, resolution and requeueing, the baseline, the findings and the unfreezing are labels of
      their own, for runs that raise, are interrupted or interleave with others. */
  ghost function AfterReconcile(s: System, sight: nat, at: Time): System {
    if !InSight(s, sight) then s
    else
      match Reconcile(s.db, SnapshotOf(s.held[sight]), at)
      case Ok(done) => s.(db := done.0)
      case Err(_) => s
  }

  /** The reconciler takes the baseline from the snapshot it holds, whatever has happened since. */
  function AfterBaseline(s: System, sight: nat): System {
    if InSight(s, sight) then s.(db := SetBaseline(s.db, SnapshotOf(s.held[sight]))) else s
  }

  function AfterResolve(s: System, key: ClientOrderKey): System {
    if key in s.broker.orders then s.(db := ResolveUnknown(s.db, key, s.broker.orders[key].orderId)) else s
  }

  function AfterDelivery(s: System, index: nat): System {
    if index < |s.broker.events| then s.(db := Ingest(s.db, s.broker.events[index]).db) else s
  }

  ghost function AfterStore(s: System, op: StoreOp): System {
    if Unguarded(op) then s.(db := ApplyOp(s.db, op)) else s
  }

  ghost function AfterWorker(s: System, move: Label, w: Name): System
    requires w in s.workers
  {
    match move
    case WorkerClaim(_, latest, at) => if s.workers[w].phase == Idle then AfterClaim(s, w, latest, at) else s
    case WorkerClaimCancel(_, at) => if s.workers[w].phase == Idle then AfterClaimCancel(s, w, at) else s
    case WorkerValidate(_, at) => AfterValidate(s, w, at)
    case WorkerSend(_, at) => AfterSend(s, w, at)
    case WorkerIngest(_) => AfterIngest(s, w)
    case WorkerFinish(_, reason) => AfterFinish(s, w, reason)
    case _ => s
  }

  /** One step; a label that is not enabled changes nothing. */
  ghost function Step(s: System, move: Label): System {
    match move
    case StoreStep(op) => AfterStore(s, op)
    case DeliverEvent(index) => AfterDelivery(s, index)
    case ResolveAtBroker(key) => AfterResolve(s, key)
    case TakeSnapshot(asOf) => AfterSnapshot(s, asOf)
    case TakeBaseline(sight) => AfterBaseline(s, sight)
    case StartRun(run) => s.(db := RunStarted(s.db, run))
    case RecordRun(run, found) => s.(db := RunRecorded(s.db, run, found))
    case RunReconciliation(sight, at) => AfterReconcile(s, sight, at)
    case QueueScenario(scenario) => s.(broker := EnqueueScenario(s.broker, scenario))
    case MarketFill(key, quantity, price, at) => s.(broker := FillAt(s.broker, key, quantity, price, at).broker)
    case MarketCommission(key, amount, at) => s.(broker := ChargeCommission(s.broker, key, amount, at).broker)
    case StartWorker(w, lease) => AfterStart(s, w, lease)
    case CrashWorker(w) => Dead(s, w)
    case _ => if move.w in s.workers then AfterWorker(s, move, move.w) else s
  }

  ghost function Run(s: System, labels: seq<Label>): System {
    if labels == [] then s else Step(Run(s, labels[..|labels| - 1]), labels[|labels| - 1])
  }
}

/** The execution worker as a class over a shared store and broker. An uninterrupted dispatch is a run of the
    worker's own labels in the state machine, so everything proved about runs holds for it; an interrupted one
    stops between two of those labels. */
module ExecutionWorkers {
  import opened BrokerModel
  import opened ControlModels
  import opened ControlTables
  import opened ExecutionStore
  import opened ExecutionSystem
  import opened FakeBroker
  import opened StoreFrames

  /** The reason recorded when the broker's response was dropped. */
  const RESPONSE_DROPPED: Name := 1

  /** A step of one worker. */
  predicate IsMoveOf(move: Label, w: Name) {
    match move
    case WorkerClaim(v, _, _) => v == w
    case WorkerClaimCancel(v, _) => v == w
    case WorkerValidate(v, _) => v == w
    case WorkerSend(v, _) => v == w
    case WorkerIngest(v) => v == w
    case WorkerFinish(v, _) => v == w
    case _ => false
  }

  /** The system in which one worker is about to dispatch. */
  function Dispatching(db: Tables, b: Broker, w: Name, lease: ExecutionLease, tokens: seq<nat>): System {
    System.System(db, b, map[w := Worker(lease, Idle)], tokens, [])
  }

  /** The system as far as store, broker and the worker's phase are concerned. */
  ghost predicate Shows(s: System, db: Tables, b: Broker, w: Name, lease: ExecutionLease, phase: Phase) {
    s.db == db && s.broker == b && s.workers == map[w := Worker(lease, phase)]
  }

  /** The worker has died; store and broker keep what it did. */
  ghost predicate Gone(s: System, db: Tables, b: Broker) { s.db == db && s.broker == b && s.workers == map[] }

  lemma RunMore(s: System, moves: seq<Label>, move: Label)
    ensures Run(s, moves + [move]) == Step(Run(s, moves), move)
  {
    hide Step;
    assert (moves + [move])[..|moves|] == moves;
  }

  /* ---------- The steps, for the one worker in view ---------- */

  lemma ClaimMove(s: System, db: Tables, b: Broker, w: Name, lease: ExecutionLease, latest: Option<Digest>, at: Time)
    requires Shows(s, db, b, w, lease, Idle)
    ensures var r := ClaimNext(db, lease, latest, at);
            var after := Step(s, WorkerClaim(w, latest, at));
            if r.result.Err? then Gone(after, r.db, b)
            else Shows(after, r.db, b, w, lease, if r.result.value.Some? then SubmitClaimed(r.result.value.value) else Idle)
  {
    hide AfterStore, AfterDelivery, AfterResolve, AfterSnapshot, AfterBaseline, AfterReconcile, AfterStart, AfterClaimCancel;
    hide AfterValidate, AfterSend, AfterIngest, AfterFinish, ClaimNext;
  }

  lemma ClaimCancelMove(s: System, db: Tables, b: Broker, w: Name, lease: ExecutionLease, at: Time)
    requires Shows(s, db, b, w, lease, Idle)
    ensures var r := ClaimNextCancel(db, lease, at);
            var after := Step(s, WorkerClaimCancel(w, at));
            if r.result.Err? then Gone(after, r.db, b)
            else Shows(after, r.db, b, w, lease, if r.result.value.Some? then CancelClaimed(r.result.value.value) else Idle)
  {
    hide AfterStore, AfterDelivery, AfterResolve, AfterSnapshot, AfterBaseline, AfterReconcile, AfterStart, AfterClaim;
    hide AfterValidate, AfterSend, AfterIngest, AfterFinish, ClaimNextCancel;
  }

  lemma ValidateMove(s: System, db: Tables, b: Broker, w: Name, lease: ExecutionLease, phase: Phase, at: Time)
    requires Shows(s, db, b, w, lease, phase) && (phase.SubmitClaimed? || phase.CancelClaimed?)
    ensures var after := Step(s, WorkerValidate(w, at));
            if LeaseCurrent(db, lease, at)
            then Shows(after, db, b, w, lease, if phase.SubmitClaimed? then SubmitValidated(phase.intent) else CancelValidated(phase.intent))
            else Gone(after, db, b)
  {
    hide AfterStore, AfterDelivery, AfterResolve, AfterSnapshot, AfterBaseline, AfterReconcile, AfterStart, AfterClaim;
    hide AfterClaimCancel, AfterSend, AfterIngest, AfterFinish, LeaseCurrent;
  }

  /** The worker in view moves on, leaving a new broker state behind. */
  lemma SentShows(s: System, db: Tables, b: Broker, w: Name, lease: ExecutionLease, phase: Phase, after: Broker, next: Phase)
    requires Shows(s, db, b, w, lease, phase)
    ensures Shows(At(Fenced(s.(broker := after), lease.fencingToken), w, next), db, after, w, lease, next)
    ensures Gone(Dead(s, w), db, b) && s.workers[w].lease == lease
  {
    assert map[w := Worker(lease, phase)] - {w} == map[];
    assert map[w := Worker(lease, phase)][w := Worker(lease, next)] == map[w := Worker(lease, next)];
  }

  lemma InView(s: System, db: Tables, b: Broker, w: Name, lease: ExecutionLease, phase: Phase)
    requires Shows(s, db, b, w, lease, phase)
    ensures w in s.workers && s.workers[w].phase == phase && s.db == db && s.broker == b
  {
  }

  lemma SubmitStep(s: System, w: Name, intent: ExecutionIntent, at: Time)
    requires w in s.workers && s.workers[w].phase == SubmitValidated(intent)
    ensures Step(s, WorkerSend(w, at)) == AfterSubmit(s, w, intent, at)
  {
    hide AfterStore, AfterDelivery, AfterResolve, AfterSnapshot, AfterBaseline, AfterReconcile, AfterStart, AfterClaim;
    hide AfterClaimCancel, AfterValidate, AfterIngest, AfterFinish, AfterSubmit, AfterCancel;
  }

  lemma CancelStep(s: System, w: Name, intent: ExecutionIntent, at: Time)
    requires w in s.workers && s.workers[w].phase == CancelValidated(intent)
    ensures Step(s, WorkerSend(w, at)) == AfterCancel(s, w, intent, at)
  {
    hide AfterStore, AfterDelivery, AfterResolve, AfterSnapshot, AfterBaseline, AfterReconcile, AfterStart, AfterClaim;
    hide AfterClaimCancel, AfterValidate, AfterIngest, AfterFinish, AfterSubmit, AfterCancel;
  }

  lemma SubmitAfter(s: System, db: Tables, b: Broker, w: Name, lease: ExecutionLease, intent: ExecutionIntent, at: Time)
    requires Shows(s, db, b, w, lease, SubmitValidated(intent))
    ensures var after := AfterSubmit(s, w, intent, at);
            var r := Submit(b, intent, lease.fencingToken, at);
            if r.result.Ok? then Shows(after, db, r.broker, w, lease, SubmitAnswered(intent, r.result.value))
            else if r.result.error == ResponseDropped then Shows(after, db, r.broker, w, lease, SubmitDropped(intent))
            else r.broker == b && Gone(after, db, b)
  {
    hide Submit, Shows, Gone, At, Fenced, Dead;
    var r := Submit(b, intent, lease.fencingToken, at);
    InView(s, db, b, w, lease, SubmitValidated(intent));
    RefusedLeavesBroker(b, intent, lease.fencingToken, at);
    SentShows(s, db, b, w, lease, SubmitValidated(intent), r.broker, if r.result.Ok? then SubmitAnswered(intent, r.result.value) else SubmitDropped(intent));
  }

  lemma SubmitMove(s: System, db: Tables, b: Broker, w: Name, lease: ExecutionLease, intent: ExecutionIntent, at: Time)
    requires Shows(s, db, b, w, lease, SubmitValidated(intent))
    ensures var after := Step(s, WorkerSend(w, at));
            var r := Submit(b, intent, lease.fencingToken, at);
            if r.result.Ok? then Shows(after, db, r.broker, w, lease, SubmitAnswered(intent, r.result.value))
            else if r.result.error == ResponseDropped then Shows(after, db, r.broker, w, lease, SubmitDropped(intent))
            else r.broker == b && Gone(after, db, b)
  {
    hide Step, Submit, AfterSubmit, Shows, Gone;
    assert w in s.workers && s.workers[w].phase == SubmitValidated(intent) by { InView(s, db, b, w, lease, SubmitValidated(intent)); }
    SubmitStep(s, w, intent, at);
    SubmitAfter(s, db, b, w, lease, intent, at);
  }

  lemma CancelAfter(s: System, db: Tables, b: Broker, w: Name, lease: ExecutionLease, intent: ExecutionIntent, at: Time)
    requires Shows(s, db, b, w, lease, CancelValidated(intent))
    ensures var after := AfterCancel(s, w, intent, at);
            var r := Cancel(b, intent.Key(), lease.fencingToken, 0, at);
            if r.result.Ok? then Shows(after, db, r.broker, w, lease, CancelAnswered(intent, r.result.value))
            else if r.result.error == ResponseDropped then Shows(after, db, r.broker, w, lease, CancelDropped(intent))
            else r.broker == b && Gone(after, db, b)
  {
    hide Cancel, Shows, Gone, At, Fenced, Dead;
    var r := Cancel(b, intent.Key(), lease.fencingToken, 0, at);
    InView(s, db, b, w, lease, CancelValidated(intent));
    RefusedCancelLeavesBroker(b, intent.Key(), lease.fencingToken, at);
    SentShows(s, db, b, w, lease, CancelValidated(intent), r.broker, if r.result.Ok? then CancelAnswered(intent, r.result.value) else CancelDropped(intent));
  }

  lemma CancelMove(s: System, db: Tables, b: Broker, w: Name, lease: ExecutionLease, intent: ExecutionIntent, at: Time)
    requires Shows(s, db, b, w, lease, CancelValidated(intent))
    ensures var after := Step(s, WorkerSend(w, at));
            var r := Cancel(b, intent.Key(), lease.fencingToken, 0, at);
            if r.result.Ok? then Shows(after, db, r.broker, w, lease, CancelAnswered(intent, r.result.value))
            else if r.result.error == ResponseDropped then Shows(after, db, r.broker, w, lease, CancelDropped(intent))
            else r.broker == b && Gone(after, db, b)
  {
    hide Step, Cancel, AfterCancel, Shows, Gone;
    assert w in s.workers && s.workers[w].phase == CancelValidated(intent) by { InView(s, db, b, w, lease, CancelValidated(intent)); }
    CancelStep(s, w, intent, at);
    CancelAfter(s, db, b, w, lease, intent, at);
  }

  lemma IngestStep(s: System, w: Name)
    requires w in s.workers
    ensures Step(s, WorkerIngest(w)) == AfterIngest(s, w)
  {
    hide AfterStore, AfterDelivery, AfterResolve, AfterSnapshot, AfterBaseline, AfterReconcile, AfterStart, AfterClaim;
    hide AfterClaimCancel, AfterValidate, AfterSend, AfterIngest, AfterFinish;
  }

  lemma IngestMove(s: System, db: Tables, b: Broker, w: Name, lease: ExecutionLease, phase: Phase)
    requires Shows(s, db, b, w, lease, phase) && (phase.SubmitAnswered? || phase.CancelAnswered?) && phase.answer != []
    ensures var r := Ingest(db, phase.answer[0]);
            var after := Step(s, WorkerIngest(w));
            if r.result.Err? then Gone(after, r.db, b) else Shows(after, r.db, b, w, lease, phase.(answer := phase.answer[1..]))
  {
    hide Step, Ingest;
    InView(s, db, b, w, lease, phase);
    IngestStep(s, w);
  }

  lemma DeliveredMove(s: System, db: Tables, b: Broker, w: Name, lease: ExecutionLease, intent: ExecutionIntent, reason: Name)
    requires Shows(s, db, b, w, lease, SubmitAnswered(intent, []))
    ensures Shows(Step(s, WorkerFinish(w, reason)), MarkDelivered(db, intent.id), b, w, lease, Idle)
  {
    hide AfterStore, AfterDelivery, AfterResolve, AfterSnapshot, AfterBaseline, AfterReconcile, AfterStart, AfterClaim;
    hide AfterClaimCancel, AfterValidate, AfterSend, AfterIngest, MarkDelivered, MarkCancelDelivered;
    hide MarkSubmissionUnknown, MarkCancelUnknown;
  }

  lemma UnknownMove(s: System, db: Tables, b: Broker, w: Name, lease: ExecutionLease, intent: ExecutionIntent, reason: Name)
    requires Shows(s, db, b, w, lease, SubmitDropped(intent))
    ensures var r := MarkSubmissionUnknown(db, intent.id, reason);
            var after := Step(s, WorkerFinish(w, reason));
            if r.result.Ok? then Shows(after, r.db, b, w, lease, Idle) else r.db == db && Gone(after, db, b)
  {
    hide AfterStore, AfterDelivery, AfterResolve, AfterSnapshot, AfterBaseline, AfterReconcile, AfterStart, AfterClaim;
    hide AfterClaimCancel, AfterValidate, AfterSend, AfterIngest, MarkDelivered, MarkCancelDelivered;
    hide MarkSubmissionUnknown, MarkCancelUnknown;
    RefusedLeavesStore(db, intent.id, reason);
  }

  lemma CancelDeliveredMove(s: System, db: Tables, b: Broker, w: Name, lease: ExecutionLease, intent: ExecutionIntent, reason: Name)
    requires Shows(s, db, b, w, lease, CancelAnswered(intent, []))
    ensures Shows(Step(s, WorkerFinish(w, reason)), MarkCancelDelivered(db, intent.Key()), b, w, lease, Idle)
  {
    hide AfterStore, AfterDelivery, AfterResolve, AfterSnapshot, AfterBaseline, AfterReconcile, AfterStart, AfterClaim;
    hide AfterClaimCancel, AfterValidate, AfterSend, AfterIngest, MarkDelivered, MarkCancelDelivered;
    hide MarkSubmissionUnknown, MarkCancelUnknown;
  }

  lemma CancelUnknownMove(s: System, db: Tables, b: Broker, w: Name, lease: ExecutionLease, intent: ExecutionIntent, reason: Name)
    requires Shows(s, db, b, w, lease, CancelDropped(intent))
    ensures var r := MarkCancelUnknown(db, intent.Key(), reason);
            var after := Step(s, WorkerFinish(w, reason));
            if r.result.Ok? then Shows(after, r.db, b, w, lease, Idle) else r.db == db && Gone(after, db, b)
  {
    hide AfterStore, AfterDelivery, AfterResolve, AfterSnapshot, AfterBaseline, AfterReconcile, AfterStart, AfterClaim;
    hide AfterClaimCancel, AfterValidate, AfterSend, AfterIngest, MarkDelivered, MarkCancelDelivered;
    hide MarkSubmissionUnknown, MarkCancelUnknown;
    RefusedCancelLeavesStore(db, intent.Key(), reason);
  }

  class ExecutionWorker {
    const store: DurableExecutionStore
    const broker: DurableFakeBroker
    const lease: ExecutionLease
    ghost const w: Name

    constructor (store: DurableExecutionStore, broker: DurableFakeBroker, lease: ExecutionLease, ghost w: Name)
      ensures this.store == store && this.broker == broker && this.lease == lease && this.w == w
    {
      this.store, this.broker, this.lease, this.w := store, broker, lease, w;
    }

    /** What the constructor does at the broker: publish the worker's token before anything else. */
    method PublishToken() returns (r: Result<()>)
      modifies broker`highestToken
      ensures Reply(broker.State(), r) == AdvanceFence(old(broker.State()), lease.fencingToken)
    {
      r := broker.PublishFence(lease.fencingToken);
    }

    /** The moves made so far have led to what store and broker hold now. */
    ghost predicate Reached(start: System, moves: seq<Label>, phase: Phase)
      reads store, broker
    {
      && (forall m :: m in moves ==> IsMoveOf(m, w))
      && Shows(Run(start, moves), store.State(), broker.State(), w, lease, phase)
    }

    /** The worker has given up; its command stays as the last move left it. */
    ghost predicate GaveUp(start: System, moves: seq<Label>)
      reads store, broker
    {
      (forall m :: m in moves ==> IsMoveOf(m, w)) && Gone(Run(start, moves), store.State(), broker.State())
    }

    method StoreEvent(e: BrokerEvent) returns (r: Result<bool>)
      modifies store
      ensures broker.State() == old(broker.State())
      ensures store.State() == Ingest(old(store.State()), e).db && r == Ingest(old(store.State()), e).result
    {
      hide Ingest;
      IngestWrites(store.State(), e);
      r := store.IngestBrokerEvent(e);
    }

    /** Stores one event of the answer. */
    method IngestNext(ghost start: System, ghost before: seq<Label>, phase: Phase) returns (ok: bool)
      requires Reached(start, before, phase) && (phase.SubmitAnswered? || phase.CancelAnswered?) && phase.answer != []
      modifies store
      ensures broker.State() == old(broker.State())
      ensures var moves := before + [WorkerIngest(w)];
              if ok then Reached(start, moves, phase.(answer := phase.answer[1..])) else GaveUp(start, moves)
    {
      hide Run, Ingest, Step, Shows, Gone;
      ghost var db := store.State();
      IngestMove(Run(start, before), db, broker.State(), w, lease, phase);
      RunMore(start, before, WorkerIngest(w));
      var r := StoreEvent(phase.answer[0]);
      ok := r.Ok?;
    }

    /** Stores the events of an answer one by one. */
    method IngestAnswer(ghost start: System, ghost before: seq<Label>, phase: Phase) returns (ok: bool, ghost moves: seq<Label>)
      requires Reached(start, before, phase) && (phase.SubmitAnswered? || phase.CancelAnswered?)
      modifies store
      ensures broker.State() == old(broker.State())
      ensures if ok then Reached(start, moves, phase.(answer := [])) else GaveUp(start, moves)
    {
      hide Run, Shows, Gone;
      moves := before;
      for i := 0 to |phase.answer|
        invariant Reached(start, moves, phase.(answer := phase.answer[i..]))
        invariant broker.State() == old(broker.State())
      {
        assert phase.answer[i..][1..] == phase.answer[i + 1..];
        ok := IngestNext(start, moves, phase.(answer := phase.answer[i..]));
        moves := moves + [WorkerIngest(w)];
        if !ok { return; }
      }
      ok := true;
    }

    /** The claim of the next command. */
    method ClaimCommand(ghost start: System, at: Time) returns (r: Result<Option<ExecutionIntent>>, ghost moves: seq<Label>)
      requires Reached(start, [], Idle)
      modifies store
      ensures broker.State() == old(broker.State())
      ensures match r
              case Err(_) => GaveUp(start, moves)
              case Ok(None) => Reached(start, moves, Idle)
              case Ok(Some(intent)) => Reached(start, moves, SubmitClaimed(intent))
    {
      hide Run, Step, ClaimNext, Shows, Gone, IsLatestAuthority;
      ghost var db := store.State();
      ghost var latest;
      r, latest := store.ClaimNextCommand(lease, at);
      ClaimMove(Run(start, []), db, broker.State(), w, lease, latest, at);
      ClaimWrites(db, lease, latest, at);
      RunMore(start, [], WorkerClaim(w, latest, at));
      moves := [] + [WorkerClaim(w, latest, at)];
      assert store.State() == ClaimNext(db, lease, latest, at).db;
    }

    /** The fence is checked once more at the store before the broker is asked. */
    method CheckLease(ghost start: System, ghost before: seq<Label>, phase: Phase, at: Time) returns (current: bool, ghost moves: seq<Label>)
      requires Reached(start, before, phase) && (phase.SubmitClaimed? || phase.CancelClaimed?)
      ensures if current then Reached(start, moves, if phase.SubmitClaimed? then SubmitValidated(phase.intent) else CancelValidated(phase.intent))
              else GaveUp(start, moves)
    {
      hide Run, Step, LeaseCurrent, Shows, Gone;
      current := store.ValidateLease(lease, at);
      ValidateMove(Run(start, before), store.State(), broker.State(), w, lease, phase, at);
      RunMore(start, before, WorkerValidate(w, at));
      moves := before + [WorkerValidate(w, at)];
    }

    method SendSubmit(ghost start: System, ghost before: seq<Label>, intent: ExecutionIntent, at: Time)
      returns (r: Result<seq<BrokerEvent>>, ghost moves: seq<Label>)
      requires Reached(start, before, SubmitValidated(intent))
      modifies broker
      ensures store.State() == old(store.State())
      ensures if r.Ok? then Reached(start, moves, SubmitAnswered(intent, r.value))
              else if r.error == ResponseDropped then Reached(start, moves, SubmitDropped(intent)) else GaveUp(start, moves)
    {
      hide Run, Step, Submit, Shows, Gone;
      SubmitMove(Run(start, before), store.State(), broker.State(), w, lease, intent, at);
      RunMore(start, before, WorkerSend(w, at));
      moves := before + [WorkerSend(w, at)];
      r := broker.SubmitIntent(intent, lease.fencingToken, at);
    }

    /** Every event of the answer is stored: the command was delivered. */
    method RecordDelivered(ghost start: System, ghost before: seq<Label>, intent: ExecutionIntent) returns (ghost moves: seq<Label>)
      requires Reached(start, before, SubmitAnswered(intent, []))
      modifies store
      ensures Reached(start, moves, Idle) && broker.State() == old(broker.State())
    {
      hide Run, Step, MarkDelivered, Shows, Gone;
      ghost var db := store.State();
      DeliveredMove(Run(start, before), db, broker.State(), w, lease, intent, RESPONSE_DROPPED);
      MarkDeliveredWrites(db, intent.id);
      RunMore(start, before, WorkerFinish(w, RESPONSE_DROPPED));
      store.MarkCommandDelivered(intent.id);
      assert store.State() == MarkDelivered(db, intent.id);
      moves := before + [WorkerFinish(w, RESPONSE_DROPPED)];
    }

    /** The broker accepted the order but its response was lost. */
    method RecordUnknown(ghost start: System, ghost before: seq<Label>, intent: ExecutionIntent) returns (r: Result<bool>, ghost moves: seq<Label>)
      requires Reached(start, before, SubmitDropped(intent))
      modifies store
      ensures broker.State() == old(broker.State())
      ensures if r.Ok? then Reached(start, moves, Idle) else GaveUp(start, moves)
    {
      hide Run, Step, MarkSubmissionUnknown, Shows, Gone;
      ghost var db := store.State();
      UnknownMove(Run(start, before), db, broker.State(), w, lease, intent, RESPONSE_DROPPED);
      MarkUnknownWrites(db, intent.id, RESPONSE_DROPPED);
      RunMore(start, before, WorkerFinish(w, RESPONSE_DROPPED));
      var marked := store.MarkUnknown(intent.id, RESPONSE_DROPPED);
      assert store.State() == MarkSubmissionUnknown(db, intent.id, RESPONSE_DROPPED).db;
      moves := before + [WorkerFinish(w, RESPONSE_DROPPED)];
      r := if marked.Ok? then Ok(true) else Err(marked.error);
    }

    /** Claims, validates, submits, ingests the answer and marks the command, or gives up where something raises. */
    method DispatchOnce(at: Time, ghost tokens: seq<nat>) returns (r: Result<bool>, ghost moves: seq<Label>)
      modifies store, broker
      ensures var start := Dispatching(old(store.State()), old(broker.State()), w, lease, tokens);
              if r.Ok? then Reached(start, moves, Idle) else GaveUp(start, moves)
    {
      hide Run, Shows, Gone;
      ghost var start := Dispatching(store.State(), broker.State(), w, lease, tokens);
      DispatchStarts(store.State(), broker.State(), w, lease, tokens);
      var claimed;
      claimed, moves := ClaimCommand(start, at);
      if claimed.Err? { return Err(claimed.error), moves; }
      if claimed.value.None? { return Ok(false), moves; }
      var intent := claimed.value.value;
      var current;
      current, moves := CheckLease(start, moves, SubmitClaimed(intent), at);
      if !current { return Err(StaleFencingToken), moves; }
      var answer;
      answer, moves := SendSubmit(start, moves, intent, at);
      if answer == Err(ResponseDropped) {
        r, moves := RecordUnknown(start, moves, intent);
        return;
      }
      if answer.Err? { return Err(answer.error), moves; }
      var stored;
      stored, moves := IngestAnswer(start, moves, SubmitAnswered(intent, answer.value));
      if !stored { return Err(IntegrityError), moves; }
      moves := RecordDelivered(start, moves, intent);
      r := Ok(true);
    }

    /* ---------- Cancels ---------- */

    method ClaimCancelCommand(ghost start: System, at: Time) returns (r: Result<Option<ExecutionIntent>>, ghost moves: seq<Label>)
      requires Reached(start, [], Idle)
      modifies store
      ensures broker.State() == old(broker.State())
      ensures match r
              case Err(_) => GaveUp(start, moves)
              case Ok(None) => Reached(start, moves, Idle)
              case Ok(Some(intent)) => Reached(start, moves, CancelClaimed(intent))
    {
      hide Run, Step, ClaimNextCancel, Shows, Gone;
      ghost var db := store.State();
      r := store.ClaimNextCancelCommand(lease, at);
      ClaimCancelMove(Run(start, []), db, broker.State(), w, lease, at);
      ClaimCancelWrites(db, lease, at);
      RunMore(start, [], WorkerClaimCancel(w, at));
      moves := [] + [WorkerClaimCancel(w, at)];
      assert store.State() == ClaimNextCancel(db, lease, at).db;
    }

    method SendCancel(ghost start: System, ghost before: seq<Label>, intent: ExecutionIntent, at: Time)
      returns (r: Result<seq<BrokerEvent>>, ghost moves: seq<Label>)
      requires Reached(start, before, CancelValidated(intent))
      modifies broker
      ensures store.State() == old(store.State())
      ensures if r.Ok? then Reached(start, moves, CancelAnswered(intent, r.value))
              else if r.error == ResponseDropped then Reached(start, moves, CancelDropped(intent)) else GaveUp(start, moves)
    {
      hide Run, Step, Cancel, Shows, Gone;
      CancelMove(Run(start, before), store.State(), broker.State(), w, lease, intent, at);
      RunMore(start, before, WorkerSend(w, at));
      moves := before + [WorkerSend(w, at)];
      r := broker.CancelOrder(intent.Key(), lease.fencingToken, 0, at);
    }

    method RecordCancelDelivered(ghost start: System, ghost before: seq<Label>, intent: ExecutionIntent) returns (ghost moves: seq<Label>)
      requires Reached(start, before, CancelAnswered(intent, []))
      modifies store
      ensures Reached(start, moves, Idle) && broker.State() == old(broker.State())
    {
      hide Run, Step, MarkCancelDelivered, Shows, Gone;
      ghost var db := store.State();
      CancelDeliveredMove(Run(start, before), db, broker.State(), w, lease, intent, RESPONSE_DROPPED);
      MarkCancelDeliveredWrites(db, intent.Key());
      RunMore(start, before, WorkerFinish(w, RESPONSE_DROPPED));
      store.MarkCancelCommandDelivered(intent.Key());
      assert store.State() == MarkCancelDelivered(db, intent.Key());
      moves := before + [WorkerFinish(w, RESPONSE_DROPPED)];
    }

    method RecordCancelUnknown(ghost start: System, ghost before: seq<Label>, intent: ExecutionIntent) returns (r: Result<bool>, ghost moves: seq<Label>)
      requires Reached(start, before, CancelDropped(intent))
      modifies store
      ensures broker.State() == old(broker.State())
      ensures if r.Ok? then Reached(start, moves, Idle) else GaveUp(start, moves)
    {
      hide Run, Step, MarkCancelUnknown, Shows, Gone;
      ghost var db := store.State();
      CancelUnknownMove(Run(start, before), db, broker.State(), w, lease, intent, RESPONSE_DROPPED);
      MarkCancelUnknownWrites(db, intent.Key(), RESPONSE_DROPPED);
      RunMore(start, before, WorkerFinish(w, RESPONSE_DROPPED));
      var marked := store.MarkCancelCommandUnknown(intent.Key(), RESPONSE_DROPPED);
      assert store.State() == MarkCancelUnknown(db, intent.Key(), RESPONSE_DROPPED).db;
      moves := before + [WorkerFinish(w, RESPONSE_DROPPED)];
      r := if marked.Ok? then Ok(true) else Err(marked.error);
    }

    /** The same for the next cancel request; cancels go out even while new risk is frozen. */
    method DispatchCancelOnce(at: Time, ghost tokens: seq<nat>) returns (r: Result<bool>, ghost moves: seq<Label>)
      modifies store, broker
      ensures var start := Dispatching(old(store.State()), old(broker.State()), w, lease, tokens);
              if r.Ok? then Reached(start, moves, Idle) else GaveUp(start, moves)
    {
      hide Run, Shows, Gone;
      ghost var start := Dispatching(store.State(), broker.State(), w, lease, tokens);
      DispatchStarts(store.State(), broker.State(), w, lease, tokens);
      var claimed;
      claimed, moves := ClaimCancelCommand(start, at);
      if claimed.Err? { return Err(claimed.error), moves; }
      if claimed.value.None? { return Ok(false), moves; }
      var intent := claimed.value.value;
      var current;
      current, moves := CheckLease(start, moves, CancelClaimed(intent), at);
      if !current { return Err(StaleFencingToken), moves; }
      var answer;
      answer, moves := SendCancel(start, moves, intent, at);
      if answer == Err(ResponseDropped) {
        r, moves := RecordCancelUnknown(start, moves, intent);
        return;
      }
      if answer.Err? { return Err(answer.error), moves; }
      var stored;
      stored, moves := IngestAnswer(start, moves, CancelAnswered(intent, answer.value));
      if !stored { return Err(IntegrityError), moves; }
      moves := RecordCancelDelivered(start, moves, intent);
      r := Ok(true);
    }
  }

  lemma DispatchStarts(db: Tables, b: Broker, w: Name, lease: ExecutionLease, tokens: seq<nat>)
    ensures var start := Dispatching(db, b, w, lease, tokens); Shows(Run(start, []), db, b, w, lease, Idle)
  {
    RunNone(Dispatching(db, b, w, lease, tokens));
    hide Run;
  }

  lemma RefusedCancelLeavesStore(db: Tables, k: ClientOrderKey, reason: Name)
    ensures MarkCancelUnknown(db, k, reason).result.Err? ==> MarkCancelUnknown(db, k, reason).db == db
  {
  }

  lemma RefusedCancelLeavesBroker(b: Broker, k: ClientOrderKey, token: nat, at: Time)
    ensures var r := Cancel(b, k, token, 0, at); r.result.Err? && r.result.error != ResponseDropped ==> r.broker == b
  {
  }

  lemma RunNone(s: System)
    ensures Run(s, []) == s
  {
    hide Step;
  }

  lemma RefusedLeavesStore(db: Tables, id: IntentId, reason: Name)
    ensures MarkSubmissionUnknown(db, id, reason).result.Err? ==> MarkSubmissionUnknown(db, id, reason).db == db
  {
  }

  lemma RefusedLeavesBroker(b: Broker, intent: ExecutionIntent, token: nat, at: Time)
    ensures var r := Submit(b, intent, token, at); r.result.Err? && r.result.error != ResponseDropped ==> r.broker == b
  {
    hide EventsFor;
  }
}

/** A run in which FILLED is lost. */
module LostFill {
  import opened ControlModels
  import opened ControlTables
  import opened ExecutionSystem
  import opened FilledLaws
  import opened SampleRuns
  import opened StoreRuns

  function FillBeforeCrash(): seq<Label> { Sending() + [MarketFill(KeyFor(1), 2, 50, 2)] + [DeliverEvent(1)] }

  function CrashAndRecover(): seq<Label> { FillBeforeCrash() + [CrashWorker(0)] + [StoreStep(OpRecover)] }

  lemma FilledRun()
    ensures Run(NewSystem(CASH), FillBeforeCrash()) == SentSystem().(broker := FilledBroker(50, 2), db := FilledTables(50, 2))
  {
    var fill := MarketFill(KeyFor(1), 2, 50, 2);
    assert FillBeforeCrash() == (Sending() + [fill]) + [DeliverEvent(1)];
    assert SentSystem().broker == SentBroker() && SentSystem().db == SentTables();
    assert FilledBroker(50, 2).events[1] == FillEvent(50, 2) && |FilledBroker(50, 2).events| == 2;
    assert FilledTables(50, 2) == Ingest(SentTables(), FillEvent(50, 2)).db;
    hide *;
    Sent();
    MarketFilled(SentSystem(), 50, 2);
    var filled := SentSystem().(broker := FilledBroker(50, 2));
    Next(Sending(), fill, SentSystem(), filled);
    DeliveredBy(filled, 1, FillEvent(50, 2));
    Next(Sending() + [fill], DeliverEvent(1), filled, filled.(db := FilledTables(50, 2)));
  }

  lemma RecoveredRow(db: Tables)
    requires IsFilled(db.intents, KeyFor(1)) && db.intents[KeyFor(1)].intent == IntentFor(1)
    requires KeyFor(1) in db.outbox && db.outbox[KeyFor(1)].intent == IntentFor(1) && db.outbox[KeyFor(1)].status == OutboxStatus.Claimed
    ensures var after := RecoverClaimed(db, db.outbox.Keys);
            KeyFor(1) in after.intents && after.intents[KeyFor(1)] == Bump(db.intents[KeyFor(1)], SubmissionUnknown)
  {
  }

  /** A worker sends an order, the broker fills it and the fill is stored: the intent is FILLED. The worker dies before
      it marks its command, and the recovery after the crash makes the intent unknown again. */
  lemma FilledIsLost()
    ensures IsFilled(Run(NewSystem(CASH), FillBeforeCrash()).db.intents, KeyFor(1))
    ensures var after := Run(NewSystem(CASH), CrashAndRecover()).db;
            KeyFor(1) in after.intents && after.intents[KeyFor(1)].status == SubmissionUnknown && after.intents[KeyFor(1)].filled == 2
  {
    var s := SentSystem().(broker := FilledBroker(50, 2), db := FilledTables(50, 2));
    assert CrashAndRecover() == (FillBeforeCrash() + [CrashWorker(0)]) + [StoreStep(OpRecover)];
    hide Run, Step, SentTables, FilledTables, RecoverClaimed, FilledBroker, FillBeforeCrash, CrashAndRecover;
    FilledRun();
    FillStored(50, 2);
    SentRow();
    RunOn(FillBeforeCrash(), CrashWorker(0));
    RunOn(FillBeforeCrash() + [CrashWorker(0)], StoreStep(OpRecover));
    RecoveredBy(s);
    RecoveredRow(FilledTables(50, 2));
  }
}

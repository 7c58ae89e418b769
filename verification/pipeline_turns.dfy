/** One turn of a run's pipeline on the one run object that the broker and the handlers share. */
module PipelineTurns {
  import opened Basics
  import opened Events
  import opened BrokerSpec
  import opened BrokerStranded
  import opened Broker
  import opened Pipeline
  import opened PipelineSpec

  /** What the broker goes through while a pipeline takes a command and its handler runs undisturbed. */
  function TurnOf(c: Config, s: State, h: nat, task: nat, now: Time): State
    requires WellFormed(s) && CanTake(s, h, task)
  {
    if Malformed(s.made[h].inQueue[0]) then BrokerSpec.TakeCommand(c, s, h, task, now)
    else CompleteCommand(StartHandling(s, h, task), h, task)
  }

  /** A handler of anything but a malformed event leaves the broker's half of the run as it is. */
  method HandleOn(broker: RunBroker, run: LiveRun, db: Database, cmd: Command, fault: Fault, now: Time)
    requires broker.Valid() && broker.Owns(run.base) && db.Knows(run.base.id) && !Malformed(cmd)
    modifies run, run.base`inQueue, db, db.table
    ensures db.Knows(run.base.id) && Others(db, run.base.id) == old(Others(db, run.base.id))
    ensures View(run, db) == Handled(old(View(run, db)), cmd, fault, now)
    ensures broker.Valid() && broker.Abstract() == old(broker.Abstract()) && run.base.Record() == old(run.base.Record())
  {
    hide Handled, Others, RecordsOf;
    ghost var before := View(run, db);
    Handle(run, db, cmd, fault, now);
    HandlerEmits(before, cmd, fault, now);
    assert run.base.inQueue == before.inQueue;
    broker.OnlyThisRun(run.base);
  }

  /** A turn that nothing interferes with, on a queue that is not empty. */
  lemma UndisturbedTurn(s: Round, fault: Fault, now: Time)
    requires !s.ended && s.inQueue != []
    ensures AfterTurn(s, Turn([], false, [], fault, now))
         == (var handled := Handled(s.(inQueue := s.inQueue[1..]), s.inQueue[0], fault, now);
             if Closes(s.inQueue[0], s.claimed) then Ended(handled) else handled)
  {
    hide Handled;
    assert s.inQueue + [] == s.inQueue;
  }

  lemma DrainedAndFailed(c: Config, s: State, h: nat, now: Time)
    requires WellFormed(s) && IsTracked(s, h)
    ensures var t := PushTo(c, Drained(s, h), s.made[h].id, Fail(MALFORMED_REASON), now);
      h < |t.made| && t.made[h] == s.made[h].(inQueue := [Fail(MALFORMED_REASON)])
  {
    hide NoteAbnormal;
    assert [] + [Fail(MALFORMED_REASON)] == [Fail(MALFORMED_REASON)];
  }

  /** A malformed event: all that was queued behind it is dropped, and the Fail pushed by run id is all there is. */
  method TakeMalformed(broker: RunBroker, run: LiveRun, db: Database, task: nat, fault: Fault, now: Time)
    requires broker.Valid() && broker.Owns(run.base) && db.Knows(run.base.id) && !run.base.ended
    requires CanTake(broker.Abstract(), run.base.handle, task) && IsTracked(broker.Abstract(), run.base.handle)
    requires run.base.inQueue != [] && Malformed(run.base.inQueue[0])
    modifies broker`unservedSince, broker.live, run.base
    ensures broker.Valid()
    ensures broker.Abstract()
         == BrokerSpec.TakeCommand(broker.config, old(broker.Abstract()), run.base.handle, task, now)
    ensures View(run, db) == AfterTurn(old(View(run, db)), Turn([], false, [], fault, now))
  {
    hide RecordsOf, Handles, PushTo, Others;
    ghost var s := broker.Abstract();
    UndisturbedTurn(View(run, db), fault, now);
    DrainedAndFailed(broker.config, s, run.base.handle, now);
    broker.OwnedRecord(run.base);
    NamedByItsId(broker, run.base);
    broker.TakeNext(run.base, task, now);
    broker.OwnedRecord(run.base);
  }

  lemma NamedByItsId(broker: RunBroker, run: Run)
    requires broker.Valid() && broker.Owns(run) && IsTracked(broker.Abstract(), run.handle)
    ensures run.id in broker.runs && broker.runs[run.id] == run
  {
  }

  method StartOn(broker: RunBroker, run: LiveRun, ghost db: Database, task: nat, now: Time)
    requires broker.Valid() && broker.Owns(run.base) && db.Knows(run.base.id)
    requires CanTake(broker.Abstract(), run.base.handle, task) && IsTracked(broker.Abstract(), run.base.handle)
    requires run.base.inQueue != [] && !Malformed(run.base.inQueue[0])
    modifies broker`unservedSince, broker.live, run.base
    ensures broker.Valid() && broker.Abstract() == StartHandling(old(broker.Abstract()), run.base.handle, task)
    ensures run.base.pipelines == old(run.base.pipelines)[task := Handling(old(run.base.inQueue[0]))]
    ensures var s := old(View(run, db)); s.inQueue != [] && View(run, db) == s.(inQueue := s.inQueue[1..])
  {
    hide RecordsOf, Handles, PushTo;
    broker.OwnedRecord(run.base);
    NamedByItsId(broker, run.base);
    broker.TakeNext(run.base, task, now);
    broker.OwnedRecord(run.base);
  }

  lemma CompletedRecord(s: State, h: nat, task: nat)
    requires WellFormed(s) && CanComplete(s, h, task)
    ensures var r, t := s.made[h], CompleteCommand(s, h, task);
      && h < |t.made|
      && t.made[h] == if Closing(r, r.pipelines[task].cmd)
                      then r.(pipelines := RemoveAt(r.pipelines, task), ended := true)
                      else r.(pipelines := r.pipelines[task := Waiting])
  {
    hide End;
    EndEffect(WithRun(s, h, s.made[h].(pipelines := RemoveAt(s.made[h].pipelines, task))), h);
  }

  /** The pipeline is done with a command: END goes out if it was a closing one. */
  method DoneWith(broker: RunBroker, run: LiveRun, ghost db: Database, task: nat)
    requires broker.Valid() && broker.Owns(run.base) && db.Knows(run.base.id)
    requires CanComplete(broker.Abstract(), run.base.handle, task) && task < |run.base.pipelines|
    requires run.base.pipelines[task].Handling?
    modifies broker`runs, broker`handlers, broker`capacity, broker`workToDo, run, run.base
    ensures broker.Valid() && broker.Abstract() == CompleteCommand(old(broker.Abstract()), run.base.handle, task)
    ensures var s := old(View(run, db));
      View(run, db) == if Closes(old(run.base.pipelines[task].cmd), s.claimed) then Ended(s) else s
  {
    hide RecordsOf, Handles, CompleteCommand;
    broker.OwnedRecord(run.base);
    CompletedRecord(broker.Abstract(), run.base.handle, task);
    var cmd := run.base.pipelines[task].cmd;
    if cmd.FinishStream? || cmd.Fail? || (cmd.RequestCancel? && run.base.claimedBy.None?) {
      run.out := run.out + [EndOfStream];
    }
    broker.HandlerDone(run.base, task);
    broker.OwnedRecord(run.base);
  }

  /** Any other command: its handler runs, and the pipeline goes back to its queue or ends the run. */
  method TakeCommand(broker: RunBroker, run: LiveRun, db: Database, task: nat, fault: Fault, now: Time)
    requires broker.Valid() && broker.Owns(run.base) && db.Knows(run.base.id) && !run.base.ended
    requires CanTake(broker.Abstract(), run.base.handle, task) && IsTracked(broker.Abstract(), run.base.handle)
    requires run.base.inQueue != [] && !Malformed(run.base.inQueue[0])
    modifies broker`runs, broker`handlers, broker`capacity, broker`workToDo, broker`unservedSince, broker.live
    modifies run, run.base, db, db.table
    ensures broker.Valid() && db.Knows(run.base.id) && Others(db, run.base.id) == old(Others(db, run.base.id))
    ensures var s := old(broker.Abstract());
      broker.Abstract() == CompleteCommand(StartHandling(s, run.base.handle, task), run.base.handle, task)
    ensures View(run, db) == AfterTurn(old(View(run, db)), Turn([], false, [], fault, now))
  {
    hide RecordsOf, Handles, Handled, Others, CompleteCommand, AfterTurn;
    UndisturbedTurn(View(run, db), fault, now);
    broker.OwnedRecord(run.base);
    var cmd := run.base.inQueue[0];
    StartOn(broker, run, db, task, now);
    HandlerEmits(View(run, db), cmd, fault, now);
    HandleOn(broker, run, db, cmd, fault, now);
    broker.OwnedRecord(run.base);
    DoneWith(broker, run, db, task);
  }

  /** A command taken, handled, and its pipeline back at its queue or gone: the broker and the round of the run move
      as their machines say, though both read and write the same object. */
  method TakeTurn(broker: RunBroker, run: LiveRun, db: Database, task: nat, fault: Fault, now: Time)
    requires broker.Valid() && broker.Owns(run.base) && db.Knows(run.base.id) && !run.base.ended
    requires CanTake(broker.Abstract(), run.base.handle, task) && IsTracked(broker.Abstract(), run.base.handle)
    modifies broker`runs, broker`handlers, broker`capacity, broker`workToDo, broker`unservedSince, broker.live
    modifies run, run.base, db, db.table
    ensures broker.Valid() && db.Knows(run.base.id) && Others(db, run.base.id) == old(Others(db, run.base.id))
    ensures broker.Abstract() == TurnOf(broker.config, old(broker.Abstract()), run.base.handle, task, now)
    ensures View(run, db) == AfterTurn(old(View(run, db)), Turn([], false, [], fault, now))
  {
    hide RecordsOf, Handles, Others, AfterTurn, CompleteCommand, StartHandling, BrokerSpec.TakeCommand;
    broker.OwnedRecord(run.base);
    if Malformed(run.base.inQueue[0]) {
      TakeMalformed(broker, run, db, task, fault, now);
    } else {
      TakeCommand(broker, run, db, task, fault, now);
    }
  }
}

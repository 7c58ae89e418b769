/**
 `_pipeline` and the handlers as they run: on a run object and a database that both change in place.
 Each is proved to do to them exactly what its function in `PipelineSpec` says.
 */
module Pipeline {
  import opened Basics
  import opened Events
  import opened Statuses
  import opened PipelineSpec
  import Broker
  import Reduce

  /** The rest of a run object: what only its handlers touch. The broker's half is `base`. */
  class LiveRun {
    const base: Broker.Run
    const startingSeq: nat
    var out: seq<Item>
    var seqNo: nat
    var sawFinished: bool
    var sawError: bool
    var pause: Option<seq<string>>
    var notified: nat

    constructor (base: Broker.Run, seqNo: nat)
      ensures this.base == base && startingSeq == this.seqNo == seqNo
      ensures out == [] && !sawFinished && !sawError && pause.None? && notified == 0
    {
      this.base, startingSeq, this.seqNo := base, seqNo, seqNo;
      out, sawFinished, sawError, pause, notified := [], false, false, None, 0;
    }
  }

  /** The three tables the handlers write. */
  class Database {
    const table: RunTable
    var events: map<RunId, seq<Entry>>
    var replies: map<RunId, seq<seq<Reduce.Message>>>

    constructor (table: RunTable)
      ensures this.table == table && events == map[] && replies == map[]
    {
      this.table := table;
      events, replies := map[], map[];
    }

    ghost predicate Knows(id: RunId)
      reads this, table
    {
      id in table.rows && id in events && id in replies
    }

    method AppendRunEvent(id: RunId, seqNo: nat, event: Event)
      requires id in events
      modifies this`events
      ensures events == old(events)[id := old(events)[id] + [Entry(seqNo, event)]]
      ensures events - {id} == old(events) - {id}
    {
      events := events[id := events[id] + [Entry(seqNo, event)]];
    }

    method GetRunEvents(id: RunId, since: nat) returns (found: seq<Event>)
      requires id in events
      ensures found == EventsSince(events[id], since)
    {
      found := [];
      var log := events[id];
      for i := 0 to |log|
        invariant found == EventsSince(log[..i], since)
      {
        assert log[..i + 1][..i] == log[..i];
        if log[i].seqNo > since {
          found := found + [log[i].event];
        }
      }
      assert log[..|log|] == log;
    }

    method AppendReplies(id: RunId, messages: seq<Reduce.Message>)
      requires id in replies
      modifies this`replies
      ensures replies == old(replies)[id := old(replies)[id] + [messages]] && replies - {id} == old(replies) - {id}
    {
      replies := replies[id := replies[id] + [messages]];
    }
  }

  /** The round these objects are in. */
  ghost function View(run: LiveRun, db: Database): Round
    requires db.Knows(run.base.id)
    reads run, run.base, db, db.table
  {
    var base := run.base;
    Round(base.claimedBy.Some?, base.cancelRequested, base.inQueue, run.out, run.seqNo, run.startingSeq,
          run.sawFinished, run.sawError, run.pause,
          db.table.rows[base.id], db.events[base.id], db.replies[base.id], run.notified, base.ended)
  }

  /** Everything the tables hold of other runs. */
  ghost function Others(db: Database, id: RunId): (Table, map<RunId, seq<Entry>>, map<RunId, seq<seq<Reduce.Message>>>)
    reads db, db.table
  {
    (db.table.rows - {id}, db.events - {id}, db.replies - {id})
  }

  method HandleClaim(run: LiveRun, db: Database, fault: Fault, now: Time)
    requires db.Knows(run.base.id)
    modifies db.table
    ensures db.Knows(run.base.id) && Others(db, run.base.id) == old(Others(db, run.base.id))
    ensures View(run, db) == Claiming(old(View(run, db)), fault, now)
  {
    if fault == Some(0) {
      return;
    }
    var _ := MarkRun(db, run.base.id, Running, now);
  }

  method DrainQueue(run: LiveRun)
    modifies run.base`inQueue
    ensures run.base.inQueue == []
  {
    while run.base.inQueue != []
      decreases |run.base.inQueue|
    {
      run.base.inQueue := run.base.inQueue[1..];
    }
  }

  method HandleRelay(run: LiveRun, db: Database, event: Event, fault: Fault, now: Time)
    requires db.Knows(run.base.id)
    modifies run, run.base`inQueue, db`events, db.table
    ensures db.Knows(run.base.id) && Others(db, run.base.id) == old(Others(db, run.base.id))
    ensures View(run, db) == Handled(old(View(run, db)), RelayEvent(event), fault, now)
  {
    if event.Invalid? {
      DrainQueue(run);
      run.base.inQueue := run.base.inQueue + [Fail(MALFORMED_REASON)];   // `broker.push`, by run id
    } else {
      NoteEvent(run, event);
      StoreAndForward(run, db, event, fault, now);
    }
  }

  /** The flags `_handle_finish` reads. */
  method NoteEvent(run: LiveRun, event: Event)
    modifies run`sawFinished, run`sawError, run`pause
    ensures run.sawFinished == (old(run.sawFinished) || event.RunFinished?)
    ensures run.sawError == (old(run.sawError) || event.RunError?)
    ensures run.pause == if InterruptOutcomeOf(event).Some? then InterruptOutcomeOf(event) else old(run.pause)
  {
    if event.RunFinished? {
      run.sawFinished := true;
      var interrupts := InterruptOutcomeOf(event);
      if interrupts.Some? {
        run.pause := interrupts;
      }
    } else if event.RunError? {
      run.sawError := true;
    }
  }

  method StoreAndForward(run: LiveRun, db: Database, event: Event, fault: Fault, now: Time)
    requires db.Knows(run.base.id)
    modifies run`seqNo, run`out, db`events, db.table
    ensures db.Knows(run.base.id) && Others(db, run.base.id) == old(Others(db, run.base.id))
    ensures var s := old(View(run, db));
      View(run, db) == s.(seqNo := s.seqNo + 1,
                          log := if Raises(fault, 0) then s.log else s.log + [Entry(s.seqNo + 1, event)],
                          row := if Raises(fault, 2) then s.row else s.row.(lastActivity := now),
                          out := if Raises(fault, 2) then s.out else s.out + [Streamed(event)])
  {
    run.seqNo := run.seqNo + 1;
    if fault == Some(0) {
      return;
    }
    db.AppendRunEvent(run.base.id, run.seqNo, event);
    if fault == Some(1) || fault == Some(2) {
      return;
    }
    db.table.TouchRunActivity(run.base.id, now);
    assert db.table.rows - {run.base.id} == old(db.table.rows) - {run.base.id};
    run.out := run.out + [Streamed(event)];
  }

  method ChooseStatus(run: LiveRun, ghost db: Database) returns (status: Status)
    requires db.Knows(run.base.id)
    ensures status == Target(View(run, db)) && status != Queued
  {
    if run.pause.Some? {
      status := InputRequired;
    } else if run.sawFinished {
      status := Completed;
    } else if run.base.cancelRequested {
      status := Cancelled;
    } else {
      status := Failed;
    }
  }

  method HandleFinish(run: LiveRun, db: Database, fault: Fault, now: Time)
    requires db.Knows(run.base.id)
    modifies run, db, db.table
    ensures db.Knows(run.base.id) && Others(db, run.base.id) == old(Others(db, run.base.id))
    ensures View(run, db) == Finishing(old(View(run, db)), fault, now)
  {
    hide Replied, Others, MarkedRow, Target, Legal;
    var status := ChooseStatus(run, db);
    var failure := status == Failed && !run.sawError;
    if fault == Some(0) {
      return;
    }
    var settled := MarkRun(db, run.base.id, status, now);
    CloseBooks(run, db, settled && (status == Completed || status == InputRequired), failure, fault);
  }

  /** What a marked run still owes: its reply to the thread, or an error to its stream. */
  method CloseBooks(run: LiveRun, db: Database, reply: bool, failure: bool, fault: Fault)
    requires db.Knows(run.base.id) && !Raises(fault, 0) && !(reply && failure)
    modifies run`seqNo, run`out, db`events, db`replies
    ensures db.Knows(run.base.id) && Others(db, run.base.id) == old(Others(db, run.base.id))
    ensures var s, event := old(View(run, db)), RunError(UNFINISHED_MESSAGE);
      View(run, db) == s.(replies := if reply && !Raises(fault, 2) then Replied(s.replies, s.log, s.startingSeq)
                                     else s.replies,
                          seqNo := if failure then s.seqNo + 1 else s.seqNo,
                          log := if failure && !Raises(fault, 1) then s.log + [Entry(s.seqNo + 1, event)] else s.log,
                          out := if failure && !Raises(fault, 2) then s.out + [Streamed(event)] else s.out)
  {
    hide Replied, Others;
    if reply {
      HandOver(run, db, fault);
    } else if failure {
      CloseWithError(run, db, fault);
    }
  }

  method MarkRun(db: Database, id: RunId, status: Status, now: Time) returns (applied: bool)
    requires db.Knows(id) && status != Queued
    modifies db.table
    ensures db.Knows(id) && Others(db, id) == old(Others(db, id))
    ensures applied == Legal(old(db.table.rows)[id].status, status)
    ensures db.table.rows[id] == MarkedRow(old(db.table.rows)[id], status, now)
  {
    var verdict := db.table.MarkRunStatus(id, status, now);
    assert db.table.rows - {id} == old(db.table.rows) - {id};
    applied := verdict.Applied?;
  }

  /** The round's events, reduced and appended to the thread; a commit that fails takes the reply back. */
  method HandOver(run: LiveRun, db: Database, fault: Fault)
    requires db.Knows(run.base.id) && !Raises(fault, 0)
    modifies db`replies
    ensures db.Knows(run.base.id) && Others(db, run.base.id) == old(Others(db, run.base.id))
    ensures var s := old(View(run, db));
      View(run, db)
      == s.(replies := if Raises(fault, 2) then s.replies else Replied(s.replies, s.log, s.startingSeq))
  {
    if fault == Some(1) {
      return;
    }
    var round := db.GetRunEvents(run.base.id, run.startingSeq);
    var messages := Reduce.ReduceEventsToMessages(round);
    if fault == Some(2) {
      return;
    }
    if messages != [] {
      db.AppendReplies(run.base.id, messages);
    }
  }

  /** The RUN_ERROR a failed run owes when it never sent its own. */
  method CloseWithError(run: LiveRun, db: Database, fault: Fault)
    requires db.Knows(run.base.id) && !Raises(fault, 0)
    modifies run`seqNo, run`out, db`events
    ensures db.Knows(run.base.id) && Others(db, run.base.id) == old(Others(db, run.base.id))
    ensures var s, event := old(View(run, db)), RunError(UNFINISHED_MESSAGE);
      View(run, db) == s.(seqNo := s.seqNo + 1,
                          log := if Raises(fault, 1) then s.log else s.log + [Entry(s.seqNo + 1, event)],
                          out := if Raises(fault, 2) then s.out else s.out + [Streamed(event)])
  {
    run.seqNo := run.seqNo + 1;
    if fault == Some(1) {
      return;
    }
    db.AppendRunEvent(run.base.id, run.seqNo, RunError(UNFINISHED_MESSAGE));
    if fault == Some(2) {
      return;
    }
    run.out := run.out + [Streamed(RunError(UNFINISHED_MESSAGE))];
  }

  method HandleCancel(run: LiveRun, db: Database, fault: Fault, now: Time)
    requires db.Knows(run.base.id)
    modifies run`notified, db.table
    ensures db.Knows(run.base.id) && Others(db, run.base.id) == old(Others(db, run.base.id))
    ensures View(run, db) == PipelineSpec.Cancelling(old(View(run, db)), fault, now)
  {
    if fault == Some(0) {
      return;
    }
    if !run.base.claimedBy.Some? {
      var _ := MarkRun(db, run.base.id, Cancelled, now);
      return;
    }
    var _ := MarkRun(db, run.base.id, Status.Cancelling, now);
    run.notified := run.notified + 1;   // `cancel_notify`, set with every claim
  }

  method HandleFail(run: LiveRun, db: Database, reason: string, fault: Fault, now: Time)
    requires db.Knows(run.base.id)
    modifies run, db`events, db.table
    ensures db.Knows(run.base.id) && Others(db, run.base.id) == old(Others(db, run.base.id))
    ensures View(run, db) == Failing(old(View(run, db)), reason, fault, now)
  {
    run.seqNo := run.seqNo + 1;
    if fault == Some(0) {
      return;
    }
    db.AppendRunEvent(run.base.id, run.seqNo, RunError(reason));
    if fault == Some(1) {
      return;
    }
    var _ := MarkRun(db, run.base.id, Failed, now);
    run.out := run.out + [Streamed(RunError(reason))];
  }

  method Handle(run: LiveRun, db: Database, cmd: Command, fault: Fault, now: Time)
    requires db.Knows(run.base.id)
    modifies run, run.base`inQueue, db, db.table
    ensures db.Knows(run.base.id) && Others(db, run.base.id) == old(Others(db, run.base.id))
    ensures View(run, db) == Handled(old(View(run, db)), cmd, fault, now)
  {
    match cmd
    case Claim => HandleClaim(run, db, fault, now);
    case RelayEvent(event) => HandleRelay(run, db, event, fault, now);
    case FinishStream => HandleFinish(run, db, fault, now);
    case RequestCancel => HandleCancel(run, db, fault, now);
    case Fail(reason) => HandleFail(run, db, reason, fault, now);
  }

  method Sweep(db: Database, id: RunId, clause: Clause, now: Time)
    requires db.Knows(id)
    modifies db.table
    ensures db.Knows(id) && Others(db, id) == old(Others(db, id))
    ensures db.table.rows[id] == Written(old(db.table.rows)[id], FailIf("", clause), now)
  {
    var _ := db.table.FailRuns([id], clause, now);
    assert db.table.rows - {id} == old(db.table.rows) - {id};
  }

  /** What the rest of the system does to the run before the loop's next command. */
  method Interfere(run: LiveRun, db: Database, turn: Turn)
    requires db.Knows(run.base.id)
    modifies run.base`inQueue, run.base`cancelRequested, db.table
    ensures db.Knows(run.base.id) && Others(db, run.base.id) == old(Others(db, run.base.id))
    ensures View(run, db) == Interfered(old(View(run, db)), turn)
  {
    hide Others, Written;
    ghost var row := db.table.rows[run.base.id];
    for i := 0 to |turn.sweeps|
      invariant db.Knows(run.base.id) && Others(db, run.base.id) == old(Others(db, run.base.id))
      invariant run.base.inQueue == old(run.base.inQueue) && run.base.cancelRequested == old(run.base.cancelRequested)
      invariant db.table.rows[run.base.id] == Swept(row, turn.sweeps[..i], turn.now)
    {
      assert turn.sweeps[..i + 1][..i] == turn.sweeps[..i];
      Sweep(db, run.base.id, turn.sweeps[i], turn.now);
    }
    assert turn.sweeps[..|turn.sweeps|] == turn.sweeps;
    hide Swept;
    run.base.inQueue := run.base.inQueue + turn.arrivals;
    if turn.cancelled {
      run.base.cancelRequested := true;
    }
  }

  lemma NothingAfterTheEnd(s: Round, turns: seq<Turn>, n: nat)
    requires n <= |turns| && Run(s, turns[..n]).ended
    ensures Run(s, turns) == Run(s, turns[..n])
    decreases |turns| - n
  {
    if n < |turns| {
      assert turns[..n + 1] == turns[..n] + [turns[n]];
      RunOneMore(s, turns[..n], turns[n]);
      NothingAfterTheEnd(s, turns, n + 1);
    } else {
      assert turns[..n] == turns;
    }
  }

  /** One command taken off the queue and handled; a closing one signals END_OF_STREAM. */
  method TakeCommand(run: LiveRun, db: Database, turn: Turn)
    requires db.Knows(run.base.id) && run.base.inQueue != []
    modifies run, run.base, db, db.table
    ensures db.Knows(run.base.id) && Others(db, run.base.id) == old(Others(db, run.base.id))
    ensures View(run, db) == Taken(old(View(run, db)), turn)
  {
    hide Handled, Others;
    var cmd := run.base.inQueue[0];
    run.base.inQueue := run.base.inQueue[1..];
    var closes := cmd.FinishStream? || cmd.Fail? || (cmd.RequestCancel? && !run.base.claimedBy.Some?);
    Handle(run, db, cmd, turn.fault, turn.now);
    if closes {
      run.out := run.out + [EndOfStream];
      run.base.ended := true;
    }
  }

  /** Drains the run's queue until a command closes the round. */
  method RunPipeline(run: LiveRun, db: Database, turns: seq<Turn>)
    requires db.Knows(run.base.id) && !run.base.ended
    modifies run, run.base, db, db.table
    ensures db.Knows(run.base.id) && Others(db, run.base.id) == old(Others(db, run.base.id))
    ensures View(run, db) == Run(old(View(run, db)), turns)
  {
    hide Taken, Interfered, Others, Run;
    ghost var start := View(run, db);
    var i := 0;
    RunNothing(start);
    while i < |turns| && !run.base.ended
      invariant 0 <= i <= |turns|
      invariant db.Knows(run.base.id) && Others(db, run.base.id) == old(Others(db, run.base.id))
      invariant View(run, db) == Run(start, turns[..i])
    {
      assert turns[..i + 1] == turns[..i] + [turns[i]];
      RunOneMore(start, turns[..i], turns[i]);
      Interfere(run, db, turns[i]);
      if run.base.inQueue != [] {
        TakeCommand(run, db, turns[i]);
      }
      i := i + 1;
    }
    if i < |turns| {
      NothingAfterTheEnd(start, turns, i);
    } else {
      assert turns[..i] == turns;
    }
  }

  /** The handler of one command, without a loop, for a run nobody claimed. */
  method RunOneShot(run: LiveRun, db: Database, cmd: Command, fault: Fault, now: Time)
    requires db.Knows(run.base.id)
    modifies run, run.base, db, db.table
    ensures db.Knows(run.base.id) && Others(db, run.base.id) == old(Others(db, run.base.id))
    ensures View(run, db) == OneShot(old(View(run, db)), cmd, fault, now)
  {
    Handle(run, db, cmd, fault, now);
    run.out := run.out + [EndOfStream];
    run.base.ended := true;
  }
}

/**
 The two doors through which a message becomes work on a thread: the A2A door falls back from the reply lane
 to the queue lane, the AG-UI door never lets a resume become an utterance. Other writers may act at every
 await, between a door's reads and its writes.
 */
module Lanes {
  import opened Basics
  import opened Statuses
  import opened Doors

  datatype Lane =
    | Reply(id: RunId)      // the paused run is queued again
    | Utterance(id: RunId)  // a new queued run
    | QueueFull
    | Snapshot              // nothing written: the thread as it is

  function Replayed(rows: Table, moments: seq<Statuses.Moment>): Table {
    if moments == [] then rows
    else
      var last := moments[|moments| - 1];
      Next(Replayed(rows, moments[..|moments| - 1]), last.write, last.at)
  }

  /** A history is replayed from the empty table, so a door's log simply continues it. */
  lemma {:induction false} ReplayContinues(before: seq<Statuses.Moment>, more: seq<Statuses.Moment>)
    ensures After(before + more) == Replayed(After(before), more)
  {
    if more == [] {
      assert before + more == before;
    } else {
      ReplayContinues(before, more[..|more| - 1]);
      assert (before + more)[..|before + more| - 1] == before + more[..|more| - 1];
    }
  }

  lemma ReplayedOne(rows: Table, log: seq<Statuses.Moment>, m: Statuses.Moment)
    ensures Replayed(rows, log + [m]) == Next(Replayed(rows, log), m.write, m.at)
  {
    assert (log + [m])[..|log|] == log;
  }

  /** What the other writers do while a door waits. */
  method OthersWrite(table: RunTable, moments: seq<Statuses.Moment>)
    modifies table
    ensures table.rows == Replayed(old(table.rows), moments)
  {
    for i := 0 to |moments|
      invariant table.rows == Replayed(old(table.rows), moments[..i])
    {
      assert moments[..i + 1] == moments[..i] + [moments[i]];
      ReplayedOne(old(table.rows), moments[..i], moments[i]);
      Write(table, moments[i]);
    }
    assert moments[..|moments|] == moments;
  }

  method Write(table: RunTable, m: Statuses.Moment)
    modifies table
    ensures table.rows == Next(old(table.rows), m.write, m.at)
  {
    match m.write
    case Create(id, thread) =>
      if id !in table.rows {
        table.CreateRun(id, thread, m.at);
      }
    case Mark(id, to) => var _ := table.MarkRunStatus(id, to, m.at);
    case Reopen(id, expected) => var _ := table.ReopenRun(id, expected, m.at);
    case FailIf(id, clause) => var _ := table.FailIfStillMatching(id, clause, m.at);
    case Touch(id) => table.TouchRunActivity(id, m.at);
  }

  predicate PausedOn(rows: Table, id: RunId, thread: ThreadId) {
    id in rows && rows[id].thread == thread && rows[id].status == InputRequired
  }

  predicate NeverCreates(moments: seq<Statuses.Moment>, id: RunId) {
    forall m :: m in moments ==> !(m.write.Create? && m.write.id == id)
  }

  lemma {:induction false} StillUnknown(rows: Table, moments: seq<Statuses.Moment>, id: RunId)
    requires id !in rows && NeverCreates(moments, id)
    ensures id !in Replayed(rows, moments)
  {
    if moments != [] {
      assert moments[|moments| - 1] in moments;
      assert forall m :: m in moments[..|moments| - 1] ==> m in moments;
      StillUnknown(rows, moments[..|moments| - 1], id);
    }
  }

  /** The queue lane both doors share: count, and later create. */
  method Enqueue(table: RunTable, thread: ThreadId, limit: Option<int>, newId: RunId,
                 meanwhile: seq<Statuses.Moment>, now: Time)
    returns (lane: Lane)
    requires newId !in table.rows && NeverCreates(meanwhile, newId)
    modifies table
    ensures lane == if HasQueueRoom(old(table.rows), thread, limit) then Utterance(newId) else QueueFull
    ensures table.rows == if lane.QueueFull? then old(table.rows)
                          else Next(Replayed(old(table.rows), meanwhile), Create(newId, thread), now)
    ensures lane.Utterance? ==> newId in table.rows && table.rows[newId] == NewRow(thread, now)
  {
    if limit.Some? && |QueuedOn(table.rows, thread)| >= limit.value {
      return QueueFull;
    }
    StillUnknown(table.rows, meanwhile, newId);
    OthersWrite(table, meanwhile);
    table.CreateRun(newId, thread, now);
    lane := Utterance(newId);
  }

  /** The lane led to a run, and nobody serves its agent: the run is recorded as failed. */
  function Offline(rows: Table, lane: Lane, serving: bool, meanwhile: seq<Statuses.Moment>, now: Time): Table {
    if (lane.Reply? || lane.Utterance?) && !serving
    then Next(Replayed(rows, meanwhile), Mark(lane.id, Failed), now)
    else rows
  }

  method RecordOffline(table: RunTable, lane: Lane, serving: bool, meanwhile: seq<Statuses.Moment>, now: Time)
    modifies table
    ensures table.rows == Offline(old(table.rows), lane, serving, meanwhile, now)
  {
    if (lane.Reply? || lane.Utterance?) && !serving {
      OthersWrite(table, meanwhile);
      var _ := table.MarkRunStatus(lane.id, Failed, now);
    }
  }

  /** What the others write in the four gaps of a door: before its reopen, before its count, before its create,
      and before it records that nobody serves the agent. */
  datatype Gaps = Gaps(
    reopen: seq<Statuses.Moment>,
    count: seq<Statuses.Moment>,
    create: seq<Statuses.Moment>,
    offline: seq<Statuses.Moment>)
  {
    predicate NeverCreate(id: RunId) {
      NeverCreates(reopen, id) && NeverCreates(count, id) && NeverCreates(create, id)
    }
  }

  /** Where a message to the A2A door goes, and the table it leaves. */
  function Started(rows: Table, thread: ThreadId, taskId: Option<RunId>, limit: Option<int>, newId: RunId,
                   serving: bool, gaps: Gaps, now: Time): (Lane, Table)
  {
    var later := Replayed(rows, gaps.reopen);
    var counted := Replayed(later, gaps.count);
    var lane :=
      if taskId.Some? && PausedOn(rows, taskId.value, thread) && IsPaused(later, taskId.value) then Reply(taskId.value)
      else if HasQueueRoom(counted, thread, limit) then Utterance(newId) else QueueFull;
    var written :=
      if lane.Reply? then Next(later, Reopen(lane.id, Some(InputRequired)), now)
      else if lane.Utterance? then Next(Replayed(counted, gaps.create), Create(newId, thread), now)
      else counted;
    (lane, Offline(written, lane, serving, gaps.offline, now))
  }

  /** `_start_run` of the A2A door. A message that names a paused task of its thread answers it if it is still
      paused when the guarded reopen runs; every other message, the loser of a race included, is an utterance. */
  method StartRun(table: RunTable, thread: ThreadId, taskId: Option<RunId>, limit: Option<int>, newId: RunId,
                  serving: bool, gaps: Gaps, now: Time)
    returns (lane: Lane)
    requires newId !in table.rows && gaps.NeverCreate(newId)
    modifies table
    ensures (lane, table.rows) == Started(old(table.rows), thread, taskId, limit, newId, serving, gaps, now)
  {
    var addressed := taskId.Some? && PausedOn(table.rows, taskId.value, thread);
    StillUnknown(table.rows, gaps.reopen, newId);
    OthersWrite(table, gaps.reopen);
    var reopened := false;
    if addressed {
      reopened := table.ReopenRun(taskId.value, Some(InputRequired), now);
    }
    if reopened {
      lane := Reply(taskId.value);
    } else {
      StillUnknown(table.rows, gaps.count, newId);
      OthersWrite(table, gaps.count);
      lane := Enqueue(table, thread, limit, newId, gaps.create, now);
    }
    RecordOffline(table, lane, serving, gaps.offline, now);
  }

  // ---------------------------------------------------------------- what the A2A door comes to

  /** The row is a run paused on the thread. */
  predicate Asking(row: Row, thread: ThreadId) {
    row.thread == thread && row.status == InputRequired
  }

  /** A message becomes a reply if and only if the task it names asks on this thread when the door looks and still asks
      when its reopen runs; the asking run is then queued again, and no row is created. */
  lemma RepliesIffAsking(rows: Table, thread: ThreadId, taskId: Option<RunId>, limit: Option<int>, newId: RunId,
                         serving: bool, gaps: Gaps, now: Time)
    ensures var (lane, written) := Started(rows, thread, taskId, limit, newId, serving, gaps, now);
      var later := Replayed(rows, gaps.reopen);
      && (lane.Reply? <==> && taskId.Some? && taskId.value in rows && Asking(rows[taskId.value], thread)
                           && taskId.value in later && later[taskId.value].status == InputRequired)
      && (lane.Reply? ==> lane.id == taskId.value)
      && (lane.Reply? && serving ==>
            written == later[lane.id := later[lane.id].(status := Queued, lastActivity := now)])
      && (lane.Reply? && !serving && gaps.offline == [] ==>
            && written.Keys == later.Keys && written - {lane.id} == later - {lane.id}
            && written[lane.id].status == Failed && written[lane.id].completedAt == Some(now))
  {
    hide Replayed;
    ReplayedNothing(Started(rows, thread, taskId, limit, newId, true, gaps, now).1);
  }

  lemma ReplayedNothing(rows: Table)
    ensures Replayed(rows, []) == rows
  {
  }

  /** Every other message becomes a run of its own, new to the table, queued, and failed at once if nobody serves
      its agent. */
  lemma UtteranceIsANewRun(rows: Table, thread: ThreadId, taskId: Option<RunId>, limit: Option<int>, newId: RunId,
                           serving: bool, gaps: Gaps, now: Time)
    requires newId !in rows && gaps.NeverCreate(newId)
    ensures var (lane, written) := Started(rows, thread, taskId, limit, newId, serving, gaps, now);
      var others := Replayed(Replayed(Replayed(rows, gaps.reopen), gaps.count), gaps.create);
      lane.Utterance? ==>
        && lane.id == newId && newId !in others
        && (serving ==> written == others[newId := Row(thread, now, Queued, None, None, now)])
        && (!serving && gaps.offline == [] ==>
              written == others[newId := Row(thread, now, Failed, None, Some(now), now)])
  {
    hide Replayed;
    var later := Replayed(rows, gaps.reopen);
    StillUnknown(rows, gaps.reopen, newId);
    StillUnknown(later, gaps.count, newId);
    StillUnknown(Replayed(later, gaps.count), gaps.create, newId);
    ReplayedNothing(Started(rows, thread, taskId, limit, newId, true, gaps, now).1);
  }

  /** Refused for room, the door writes nothing; and it refuses exactly the messages that are no replies and find
      as many runs `waiting` on the thread as the limit allows. */
  lemma FullIffAtTheLimit(rows: Table, thread: ThreadId, taskId: Option<RunId>, limit: Option<int>, newId: RunId,
                          serving: bool, gaps: Gaps, now: Time, waiting: set<RunId>)
    requires var counted := Replayed(Replayed(rows, gaps.reopen), gaps.count);
      forall id :: id in waiting <==> id in counted && counted[id].thread == thread && counted[id].status == Queued
    ensures var (lane, written) := Started(rows, thread, taskId, limit, newId, serving, gaps, now);
      && (lane.QueueFull? <==> !lane.Reply? && limit.Some? && |waiting| >= limit.value)
      && (lane.QueueFull? ==> written == Replayed(Replayed(rows, gaps.reopen), gaps.count))
      && !lane.Snapshot?
  {
    hide Replayed;
    assert waiting == QueuedOn(Replayed(Replayed(rows, gaps.reopen), gaps.count), thread);
  }

  /** `get_paused_run_for_thread`: the latest created of the runs paused on the thread. */
  predicate LatestPaused(rows: Table, id: RunId, thread: ThreadId) {
    && PausedOn(rows, id, thread)
    && forall other :: other in rows && PausedOn(rows, other, thread) ==> rows[other].createdAt <= rows[id].createdAt
  }

  method PausedRun(table: RunTable, thread: ThreadId) returns (found: Option<RunId>)
    ensures found.Some? ==> LatestPaused(table.rows, found.value, thread)
    ensures found.None? ==> forall id :: id in table.rows ==> !PausedOn(table.rows, id, thread)
  {
    found := None;
    var unseen := table.rows.Keys;
    while unseen != {}
      invariant unseen <= table.rows.Keys
      invariant found.Some? ==> PausedOn(table.rows, found.value, thread)
      invariant forall id :: id in table.rows && id !in unseen && PausedOn(table.rows, id, thread) ==>
                  found.Some? && table.rows[id].createdAt <= table.rows[found.value].createdAt
      decreases unseen
    {
      var id :| id in unseen;
      unseen := unseen - {id};
      if PausedOn(table.rows, id, thread)
         && (found.None? || table.rows[found.value].createdAt < table.rows[id].createdAt)
      {
        found := Some(id);
      }
    }
  }

  /** What a resume comes to, the thread's latest paused run being `paused` when the door looked. */
  function Resumed(rows: Table, paused: Option<RunId>, serving: bool, gaps: Gaps, now: Time): (Lane, Table) {
    var later := Replayed(rows, gaps.reopen);
    if paused.None? then (Snapshot, rows)
    else if !IsPaused(later, paused.value) then (Snapshot, later)
    else
      (Reply(paused.value),
       Offline(Next(later, Reopen(paused.value, Some(InputRequired)), now), Reply(paused.value), serving, gaps.offline,
               now))
  }

  /** What a resume of this thread may come to. */
  ghost predicate ResumeOutcome(rows: Table, thread: ThreadId, serving: bool, gaps: Gaps, now: Time,
                                lane: Lane, written: Table) {
    if exists id :: PausedOn(rows, id, thread) then
      exists id :: LatestPaused(rows, id, thread) && (lane, written) == Resumed(rows, Some(id), serving, gaps, now)
    else (lane, written) == Resumed(rows, None, serving, gaps, now)
  }

  /** The AG-UI door. A resume answers the thread's latest paused run, if that is still paused when the guarded
      reopen runs, and is otherwise answered with a snapshot; only a message that is no resume enters the queue. */
  method RunInput(table: RunTable, thread: ThreadId, resume: bool, limit: Option<int>, newId: RunId,
                  serving: bool, gaps: Gaps, now: Time)
    returns (lane: Lane)
    requires newId !in table.rows && gaps.NeverCreate(newId)
    modifies table
    ensures !resume ==>
              (lane, table.rows) == Started(old(table.rows), thread, None, limit, newId, serving, gaps, now)
    ensures resume ==> ResumeOutcome(old(table.rows), thread, serving, gaps, now, lane, table.rows)
  {
    if !resume {
      lane := StartRun(table, thread, None, limit, newId, serving, gaps, now);
      return;
    }
    var paused := PausedRun(table, thread);
    if paused.None? {
      return Snapshot;
    }
    OthersWrite(table, gaps.reopen);
    var reopened := table.ReopenRun(paused.value, Some(InputRequired), now);
    if !reopened {
      return Snapshot;
    }
    lane := Reply(paused.value);
    RecordOffline(table, lane, serving, gaps.offline, now);
  }

  /** Some run is paused on the thread when the door looks, and all that are still are when its reopen runs. */
  ghost predicate StillAsking(rows: Table, thread: ThreadId, gaps: Gaps) {
    && (exists id :: PausedOn(rows, id, thread))
    && (forall id :: PausedOn(rows, id, thread) ==> IsPaused(Replayed(rows, gaps.reopen), id))
  }

  /** A resume is a reply to a latest-created run of those paused on the thread, which is then queued, or failed if
      nobody serves its agent, or it is a snapshot; and it is a reply if none of them has been answered or failed before
      the reopen. */
  lemma ResumeReplies(rows: Table, thread: ThreadId, serving: bool, gaps: Gaps, now: Time, lane: Lane, written: Table)
    requires ResumeOutcome(rows, thread, serving, gaps, now, lane, written)
    ensures lane.Reply? || lane.Snapshot?
    ensures lane.Reply? ==> LatestPaused(rows, lane.id, thread) && IsPaused(Replayed(rows, gaps.reopen), lane.id)
    ensures lane.Reply? && serving ==> lane.id in written && written[lane.id].status == Queued
    ensures lane.Reply? && !serving && gaps.offline == [] ==>
              lane.id in written && written[lane.id].status == Failed
    ensures StillAsking(rows, thread, gaps) ==> lane.Reply?
    ensures lane.Snapshot? ==>
              written == if exists id :: PausedOn(rows, id, thread) then Replayed(rows, gaps.reopen) else rows
  {
    hide Replayed;
    if lane.Reply? {
      ReplayedNothing(Next(Replayed(rows, gaps.reopen), Reopen(lane.id, Some(InputRequired)), now));
    }
  }

  /** Of two replies to one paused task, each of which saw it paused, the one whose reopen comes second lands in
      the queue lane, however the rest is interleaved, unless the run has asked again in between. */
  lemma LoserIsAnUtterance(rows: Table, thread: ThreadId, taskId: RunId, limit: Option<int>, newId: RunId,
                           serving: bool, gaps: Gaps, now: Time, won: nat)
    requires won < |gaps.reopen| && gaps.reopen[won].write == Reopen(taskId, Some(InputRequired))
    requires forall i :: won < i < |gaps.reopen| ==> gaps.reopen[i].write != Mark(taskId, InputRequired)
    ensures !Started(rows, thread, Some(taskId), limit, newId, serving, gaps, now).0.Reply?
  {
    NotPausedAgain(rows, gaps.reopen, taskId, won);
  }

  lemma {:induction false} NotPausedAgain(rows: Table, moments: seq<Statuses.Moment>, id: RunId, won: nat)
    requires won < |moments| && moments[won].write == Reopen(id, Some(InputRequired))
    requires forall i :: won < i < |moments| ==> moments[i].write != Mark(id, InputRequired)
    ensures !IsPaused(Replayed(rows, moments), id)
  {
    var before := moments[..|moments| - 1];
    if won < |before| {
      assert forall i :: 0 <= i < |before| ==> before[i] == moments[i];
      NotPausedAgain(rows, before, id, won);
    }
  }

  /** A reply that wins continues the table's history by the others' writes and one guarded reopen, so what is
      proved of guarded histories goes on holding. */
  lemma ReplyContinuesTheHistory(before: seq<Statuses.Moment>, first: seq<Statuses.Moment>, id: RunId, now: Time)
    requires AllGuarded(before) && AllGuarded(first)
    ensures var log := before + (first + [Statuses.Moment(Reopen(id, Some(InputRequired)), now)]);
      && AllGuarded(log)
      && After(log) == Next(Replayed(After(before), first), Reopen(id, Some(InputRequired)), now)
  {
    var reopen := Statuses.Moment(Reopen(id, Some(InputRequired)), now);
    ReplayContinues(before, first + [reopen]);
    ReplayedOne(After(before), first, reopen);
  }
}

/**
 The `runs` table as the writers see it: a run's status moves by one conditional UPDATE per write,
 and everything below is about all interleavings of such writes.
 */
module Statuses {
  import opened Basics

  type ThreadId = string

  datatype Status = Queued | Running | InputRequired | Cancelling | Completed | Cancelled | Failed {
    predicate Terminal() {
      Completed? || Cancelled? || Failed?
    }
  }

  datatype Row = Row(
    thread: ThreadId,
    createdAt: Time,
    status: Status,
    startedAt: Option<Time>,
    completedAt: Option<Time>,
    lastActivity: Time)

  type Table = map<RunId, Row>

  /** Which statuses each `mark_run_status` write may come from; "queued" is never written by it. */
  const LEGAL_STATUS_TRANSITIONS: map<Status, set<Status>> := map[
    Running := {Queued},
    InputRequired := {Running, Cancelling},
    Cancelling := {Running},
    Completed := {Running, Cancelling},
    Cancelled := {Queued, Running, Cancelling},
    Failed := {Queued, Running, Cancelling, InputRequired}]

  predicate Legal(from: Status, to: Status) {
    to in LEGAL_STATUS_TRANSITIONS && from in LEGAL_STATUS_TRANSITIONS[to]
  }

  /** What the sweeps fail: everything unfinished after a restart, the silent, or the long paused. */
  datatype Clause = Orphaned | Stalled(cutoff: Time) | StalePaused(cutoff: Time)

  predicate Matches(clause: Clause, row: Row) {
    match clause
    case Orphaned => row.status in {Queued, Running, Cancelling}
    case Stalled(cutoff) => row.status in {Running, Cancelling} && row.lastActivity < cutoff
    case StalePaused(cutoff) => row.status == InputRequired && row.lastActivity < cutoff
  }

  datatype Write =
    | Create(id: RunId, thread: ThreadId)
    | Mark(id: RunId, to: Status)
    | Reopen(id: RunId, expected: Option<Status>)
    | FailIf(id: RunId, clause: Clause)
    | Touch(id: RunId)

  function Marked(row: Row, to: Status, now: Time): Row {
    row.(status := to, lastActivity := now,
         startedAt := if to == Running then Some(now) else row.startedAt,
         completedAt := if to.Terminal() then Some(now) else row.completedAt)
  }

  /** The row a write is about, once it has been executed. */
  function Written(row: Row, write: Write, now: Time): Row {
    match write
    case Create(_, _) => row
    case Mark(_, to) => if Legal(row.status, to) then Marked(row, to, now) else row
    case Reopen(_, expected) =>
      if expected.None? || expected.value == row.status then row.(status := Queued, lastActivity := now) else row
    case FailIf(_, clause) => if Matches(clause, row) then row.(status := Failed, completedAt := Some(now)) else row
    case Touch(_) => row.(lastActivity := now)
  }

  function NewRow(thread: ThreadId, now: Time): Row {
    Row(thread, now, Queued, None, None, now)
  }

  function Next(rows: Table, write: Write, now: Time): Table {
    if write.id in rows then rows[write.id := Written(rows[write.id], write, now)]
    else if write.Create? then rows[write.id := NewRow(write.thread, now)]
    else rows
  }

  // --------------------------------------------------------------------------- the table itself

  datatype Verdict = Applied | Refused(current: Status) | RunRowMissing | NotWritable

  class RunTable {
    var rows: Table

    constructor ()
      ensures rows == map[]
    {
      rows := map[];
    }

    method CreateRun(id: RunId, thread: ThreadId, now: Time)
      requires id !in rows
      modifies this
      ensures rows == Next(old(rows), Create(id, thread), now)
      ensures rows[id].status == Queued && rows[id].startedAt == rows[id].completedAt == None
    {
      rows := rows[id := Row(thread, now, Queued, None, None, now)];
    }

    /** Moves the row along the table or leaves it as it is, and says which. */
    method MarkRunStatus(id: RunId, to: Status, now: Time) returns (verdict: Verdict)
      modifies this
      ensures rows == Next(old(rows), Mark(id, to), now)
      ensures verdict.NotWritable? <==> to == Queued
      ensures verdict.RunRowMissing? <==> to != Queued && id !in old(rows)
      ensures verdict.Applied? <==> id in old(rows) && Legal(old(rows)[id].status, to)
      ensures verdict.Refused? ==> id in old(rows) && verdict.current == old(rows)[id].status && rows == old(rows)
    {
      if to !in LEGAL_STATUS_TRANSITIONS {
        return NotWritable;
      }
      if id in rows && rows[id].status in LEGAL_STATUS_TRANSITIONS[to] {
        var row := rows[id].(status := to, lastActivity := now);
        if to == Running {
          row := row.(startedAt := Some(now));
        } else if to == Completed || to == Failed || to == Cancelled {
          row := row.(completedAt := Some(now));
        }
        rows := rows[id := row];
        return Applied;
      }
      if id !in rows {
        return RunRowMissing;
      }
      return Refused(rows[id].status);
    }

    /** Puts the run back to "queued"; with `expected`, only while the row is still in that status. */
    method ReopenRun(id: RunId, expected: Option<Status>, now: Time) returns (changed: bool)
      modifies this
      ensures rows == Next(old(rows), Reopen(id, expected), now)
      ensures changed <==> id in old(rows) && (expected.None? || old(rows)[id].status == expected.value)
      ensures !changed ==> rows == old(rows)
    {
      changed := id in rows && (expected.None? || rows[id].status == expected.value);
      if changed {
        rows := rows[id := rows[id].(status := Queued, lastActivity := now)];
      }
    }

    /** The conditional UPDATE of one selected row, and whether it changed it. */
    method FailIfStillMatching(id: RunId, clause: Clause, now: Time) returns (changed: bool)
      modifies this
      ensures rows == Next(old(rows), FailIf(id, clause), now)
      ensures changed <==> id in old(rows) && Matches(clause, old(rows)[id])
    {
      changed := id in rows && Matches(clause, rows[id]);
      if changed {
        rows := rows[id := rows[id].(status := Failed, completedAt := Some(now))];
      }
    }

    /** `_fail_runs` over the ids its SELECT found: each is failed only if it still matches. */
    method FailRuns(selected: seq<RunId>, clause: Clause, now: Time) returns (failed: seq<RunId>)
      requires NoDuplicates(selected)
      modifies this
      ensures rows.Keys == old(rows).Keys
      ensures forall id :: id in rows ==>
                rows[id] == if id in selected then Written(old(rows)[id], FailIf(id, clause), now) else old(rows)[id]
      ensures forall id :: id in failed <==> id in selected && id in old(rows) && Matches(clause, old(rows)[id])
      ensures NoDuplicates(failed)
    {
      hide Written, Matches;
      failed := [];
      for i := 0 to |selected|
        invariant rows.Keys == old(rows).Keys
        invariant forall id :: id in rows ==>
                    rows[id] == if id in selected[..i] then Written(old(rows)[id], FailIf(id, clause), now)
                                else old(rows)[id]
        invariant forall id :: id in failed <==>
                    id in selected[..i] && id in old(rows) && Matches(clause, old(rows)[id])
        invariant NoDuplicates(failed)
      {
        assert selected[..i + 1] == selected[..i] + [selected[i]];
        var changed := FailIfStillMatching(selected[i], clause, now);
        if changed {
          failed := failed + [selected[i]];
        }
      }
      assert selected[..|selected|] == selected;
    }

    method TouchRunActivity(id: RunId, now: Time)
      modifies this
      ensures rows == Next(old(rows), Touch(id), now)
    {
      if id in rows {
        rows := rows[id := rows[id].(lastActivity := now)];
      }
    }
  }

  // ------------------------------------------------------------------------------ status histories

  datatype Moment = Moment(write: Write, at: Time)

  predicate Guarded(write: Write) {
    write.Reopen? ==> write.expected == Some(InputRequired)
  }

  /** The tables `moments` leads through, starting from an empty one. */
  function After(moments: seq<Moment>): Table {
    if moments == [] then map[]
    else Next(After(moments[..|moments| - 1]), moments[|moments| - 1].write, moments[|moments| - 1].at)
  }

  predicate AllGuarded(moments: seq<Moment>) {
    forall m :: m in moments ==> Guarded(m.write)
  }

  /** Every writer moves a row along the legal table, or is a reopen. */
  lemma EveryMoveIsLegal(rows: Table, write: Write, now: Time, id: RunId)
    requires id in rows
    ensures id in Next(rows, write, now)
    ensures var from, to := rows[id].status, Next(rows, write, now)[id].status;
      from == to || Legal(from, to) || (write.Reopen? && write.id == id && to == Queued)
  {
  }

  predicate Stamped(row: Row) {
    row.completedAt.Some? <==> row.status.Terminal()
  }

  predicate WellStamped(rows: Table) {
    forall id :: id in rows ==> Stamped(rows[id])
  }

  /** A reopen that wins over a row that is already over. */
  predicate Resurrects(rows: Table, write: Write) {
    && write.Reopen? && write.id in rows && rows[write.id].status.Terminal()
    && (write.expected.None? || write.expected.value == rows[write.id].status)
  }

  predicate ResurrectsAt(moments: seq<Moment>, i: nat)
    requires i < |moments|
  {
    Resurrects(After(moments[..i]), moments[i].write)
  }

  lemma StampStep(rows: Table, write: Write, now: Time)
    requires WellStamped(rows)
    ensures WellStamped(Next(rows, write, now)) <==> !Resurrects(rows, write)
  {
    var next := Next(rows, write, now);
    if Resurrects(rows, write) {
      assert !Stamped(next[write.id]);
    }
  }

  /** `completed_at` is set exactly in the terminal statuses, at every point of a history, if and only
      if no reopen of that history ever won over a terminal row. */
  lemma {:induction false} CompletedExactlyWhenOver(moments: seq<Moment>)
    ensures (forall n :: 0 <= n <= |moments| ==> WellStamped(After(moments[..n])))
       <==> (forall i :: 0 <= i < |moments| ==> !ResurrectsAt(moments, i))
  {
    hide Next, Resurrects, WellStamped;
    if moments == [] {
      assert WellStamped(map[]) by { NothingStamped(); }
      assert moments[..0] == moments;
    } else {
      var n := |moments| - 1;
      var before, last := moments[..n], moments[n];
      CompletedExactlyWhenOver(before);
      assert moments[..n + 1] == moments && before[..n] == before;
      assert forall k :: 0 <= k <= n ==> before[..k] == moments[..k];
      assert forall i :: 0 <= i < n ==> ResurrectsAt(before, i) == ResurrectsAt(moments, i);
      assert After(moments) == Next(After(before), last.write, last.at);
      if !WellStamped(After(before)) {
        assert !WellStamped(After(moments[..n]));
        var i :| 0 <= i < n && ResurrectsAt(before, i);
        assert ResurrectsAt(moments, i);
      } else {
        StampStep(After(before), last.write, last.at);
        assert WellStamped(After(moments)) <==> !ResurrectsAt(moments, n);
        assert WellStamped(After(moments)) <==> WellStamped(After(moments[..n + 1]));
        if forall k :: 0 <= k <= n ==> WellStamped(After(moments[..k])) {
          assert forall k :: 0 <= k <= n ==> WellStamped(After(before[..k]));
        } else {
          var k :| 0 <= k <= n && !WellStamped(After(moments[..k]));
          assert !WellStamped(After(before[..k]));
        }
      }
    }
  }

  lemma NothingStamped()
    ensures WellStamped(map[])
  {
  }

  /** The two doors' reopens carry the guard, and a guarded reopen never does. */
  lemma GuardedNeverResurrects(moments: seq<Moment>)
    requires AllGuarded(moments)
    ensures forall n :: 0 <= n <= |moments| ==> WellStamped(After(moments[..n]))
  {
    forall i | 0 <= i < |moments| ensures !ResurrectsAt(moments, i) {
      assert moments[i] in moments;
    }
    CompletedExactlyWhenOver(moments);
  }

  /** `resume_run` reopens without the guard: a failed run is queued again, its `completed_at` kept. */
  lemma UnguardedReopenResurrects(id: RunId, thread: ThreadId)
    ensures var moments := [Moment(Create(id, thread), 1), Moment(Mark(id, Failed), 2), Moment(Reopen(id, None), 3)];
      After(moments) == map[id := Row(thread, 1, Queued, None, Some(2), 3)] && !WellStamped(After(moments))
  {
    var moments := [Moment(Create(id, thread), 1), Moment(Mark(id, Failed), 2), Moment(Reopen(id, None), 3)];
    assert moments[..2][..1] == [moments[0]] && moments[..1][..0] == [];
    assert After(moments[..1]) == map[id := NewRow(thread, 1)];
    assert After(moments[..2]) == map[id := Row(thread, 1, Failed, None, Some(2), 2)];
    assert !Stamped(After(moments)[id]);
  }

  /** With guarded reopens only, a run that is over stays exactly as it ended: status and both stamps. */
  lemma {:induction false} TerminalIsAbsorbing(moments: seq<Moment>, n: nat, id: RunId)
    requires AllGuarded(moments) && n <= |moments|
    requires id in After(moments[..n]) && After(moments[..n])[id].status.Terminal()
    ensures id in After(moments)
    ensures After(moments) [id] == After(moments[..n])[id].(lastActivity := After(moments)[id].lastActivity)
  {
    if n == |moments| {
      assert moments[..n] == moments;
    } else {
      var before := moments[..|moments| - 1];
      assert before[..n] == moments[..n];
      assert moments[|moments| - 1] in moments;
      TerminalIsAbsorbing(before, n, id);
    }
  }

  // -------------------------------------------------------------------- asks, replies and failures

  function StatusIn(rows: Table, id: RunId): Option<Status> {
    if id in rows then Some(rows[id].status) else None
  }

  predicate IsPaused(rows: Table, id: RunId) {
    StatusIn(rows, id) == Some(InputRequired)
  }

  datatype Tally = Tally(asked: nat, replied: nat, failed: nat)

  /** What one write does to the account of the run's questions. */
  function Booked(tally: Tally, rows: Table, m: Moment, id: RunId): Tally {
    var next := Next(rows, m.write, m.at);
    Tally(tally.asked + (if !IsPaused(rows, id) && IsPaused(next, id) then 1 else 0),
          tally.replied + (if IsPaused(rows, id) && StatusIn(next, id) == Some(Queued) then 1 else 0),
          tally.failed + (if IsPaused(rows, id) && StatusIn(next, id) == Some(Failed) then 1 else 0))
  }

  /** Entries into input-required, reopens out of it and failures out of it, over a history. */
  function Account(moments: seq<Moment>, id: RunId): Tally {
    if moments == [] then Tally(0, 0, 0)
    else
      var before := moments[..|moments| - 1];
      Booked(Account(before, id), After(before), moments[|moments| - 1], id)
  }

  /** However many replies race, each entry into input-required is matched by exactly one of: a reply
      that won, a failure, or the run still waiting. This needs no guard on the reopens. */
  lemma {:induction false} EveryAskIsSettledOnce(moments: seq<Moment>, id: RunId)
    ensures var tally := Account(moments, id);
      tally.asked == tally.replied + tally.failed + if IsPaused(After(moments), id) then 1 else 0
  {
    if moments != [] {
      EveryAskIsSettledOnce(moments[..|moments| - 1], id);
    }
  }

  /** The replies that win: guarded reopens that changed a row. */
  function WonReplies(moments: seq<Moment>, id: RunId): nat {
    if moments == [] then 0
    else
      var before, last := moments[..|moments| - 1], moments[|moments| - 1].write;
      WonReplies(before, id) + if last == Reopen(id, Some(InputRequired)) && IsPaused(After(before), id) then 1 else 0
  }

  /** With guarded reopens only, the replies that won are the reopens in the account, so there are never
      more of them than questions asked. */
  lemma {:induction false} RacingRepliesWinOncePerAsk(moments: seq<Moment>, id: RunId)
    requires AllGuarded(moments)
    ensures WonReplies(moments, id) == Account(moments, id).replied
    ensures WonReplies(moments, id) <= Account(moments, id).asked
  {
    EveryAskIsSettledOnce(moments, id);
    if moments != [] {
      var before, last := moments[..|moments| - 1], moments[|moments| - 1];
      assert last in moments;
      RacingRepliesWinOncePerAsk(before, id);
    }
  }
}

/**
 What a row of the `runs` table says about its history: when the run was last active, when it was last started and
 last over, and so exactly which runs a sweep fails.
 */
module StatusTimes {
  import opened Basics
  import opened Statuses

  /** Where a run may go from each status, a reopen aside. */
  function Successors(from: Status): set<Status> {
    match from
    case Queued => {Running, Cancelled, Failed}
    case Running => {InputRequired, Cancelling, Completed, Cancelled, Failed}
    case Cancelling => {InputRequired, Completed, Cancelled, Failed}
    case InputRequired => {Failed}
    case Completed => {}
    case Cancelled => {}
    case Failed => {}
  }

  /** A mark moves the row if and only if its target is a successor of the row's status; the statuses that end a run
      have none, and none is "queued". */
  lemma MarksFollowTheGraph(rows: Table, id: RunId, to: Status, now: Time)
    requires id in rows
    ensures var from := rows[id].status;
      Next(rows, Mark(id, to), now)[id].status == if to in Successors(from) then to else from
    ensures rows[id].status.Terminal() <==> Successors(rows[id].status) == {}
    ensures Queued !in Successors(rows[id].status)
  {
    assert rows[id].status.Terminal() || Failed in Successors(rows[id].status);
  }

  // ------------------------------------------------------------------------------- the last activity

  /** The write shows the run alive: it creates or touches it, or it is a mark or a reopen that goes through. */
  predicate ShowsLife(rows: Table, write: Write, id: RunId) {
    && write.id == id
    && match write
       case Create(_, _) => id !in rows
       case Touch(_) => id in rows
       case Mark(_, to) => id in rows && to in Successors(rows[id].status)
       case Reopen(_, expected) => id in rows && (expected == None || expected == Some(rows[id].status))
       case FailIf(_, _) => false
  }

  predicate AliveAt(moments: seq<Moment>, i: nat, id: RunId)
    requires i < |moments|
  {
    ShowsLife(After(moments[..i]), moments[i].write, id)
  }

  function LastAlive(moments: seq<Moment>, id: RunId): Option<Time> {
    if moments == [] then None
    else
      var n := |moments| - 1;
      if AliveAt(moments, n, id) then Some(moments[n].at) else LastAlive(moments[..n], id)
  }

  lemma ActivityNext(rows: Table, write: Write, now: Time, id: RunId)
    ensures var next := Next(rows, write, now);
      id in next ==>
        next[id].lastActivity == if ShowsLife(rows, write, id) then now
                                 else if id in rows then rows[id].lastActivity else now
    ensures id in Next(rows, write, now) && id !in rows ==> ShowsLife(rows, write, id)
  {
  }

  /** A row's last activity is the time of the last write that showed the run alive, which failing it in a sweep does
      not. */
  lemma {:induction false} ActivityIsLastAlive(moments: seq<Moment>, id: RunId)
    ensures id in After(moments) ==> LastAlive(moments, id) == Some(After(moments)[id].lastActivity)
  {
    if moments != [] {
      var n := |moments| - 1;
      ActivityIsLastAlive(moments[..n], id);
      ActivityNext(After(moments[..n]), moments[n].write, moments[n].at, id);
      hide Next, ShowsLife;
    }
  }

  predicate ClockNeverGoesBack(moments: seq<Moment>) {
    forall i, j :: 0 <= i <= j < |moments| ==> moments[i].at <= moments[j].at
  }

  predicate SilentSince(moments: seq<Moment>, id: RunId, cutoff: Time) {
    forall i :: 0 <= i < |moments| && AliveAt(moments, i, id) ==> moments[i].at < cutoff
  }

  lemma {:induction false} LastAliveIsLatest(moments: seq<Moment>, id: RunId, cutoff: Time)
    requires ClockNeverGoesBack(moments)
    ensures (LastAlive(moments, id).Some? ==> LastAlive(moments, id).value < cutoff)
       <==> SilentSince(moments, id, cutoff)
  {
    if moments != [] {
      var n := |moments| - 1;
      var before := moments[..n];
      assert forall i :: 0 <= i < n ==> before[i] == moments[i];
      LastAliveIsLatest(before, id, cutoff);
      forall i | 0 <= i < n ensures AliveAt(before, i, id) == AliveAt(moments, i, id) {
        assert before[..i] == moments[..i];
      }
    }
  }

  /** The row as a sweep that takes it leaves it. */
  function Swept(row: Row, now: Time): Row {
    row.(status := Failed, completedAt := Some(now))
  }

  /** Which runs a sweep fails, in times: after a restart whatever is unfinished and not paused; the stall sweep just
      those running or cancelling, and the other just those paused, that have shown no life since the cutoff. It does
      nothing else to them, and nothing at all to the others. */
  lemma SweptIffSilent(moments: seq<Moment>, id: RunId, cutoff: Time, now: Time)
    requires ClockNeverGoesBack(moments) && id in After(moments)
    ensures var rows := After(moments);
      var row, silent := rows[id], SilentSince(moments, id, cutoff);
      && Next(rows, FailIf(id, Orphaned), now)
         == (if row.status in {Queued, Running, Cancelling} then rows[id := Swept(row, now)] else rows)
      && Next(rows, FailIf(id, Stalled(cutoff)), now)
         == (if row.status in {Running, Cancelling} && silent then rows[id := Swept(row, now)] else rows)
      && Next(rows, FailIf(id, StalePaused(cutoff)), now)
         == (if row.status == InputRequired && silent then rows[id := Swept(row, now)] else rows)
  {
    hide After, SilentSince, LastAlive;
    ActivityIsLastAlive(moments, id);
    LastAliveIsLatest(moments, id, cutoff);
  }

  // -------------------------------------------------------------------------------------- the stamps

  /** The time of the last write that brought the run into one of `statuses` from outside them. */
  function LastEntry(moments: seq<Moment>, id: RunId, statuses: set<Status>): Option<Time> {
    if moments == [] then None
    else
      var before, last := moments[..|moments| - 1], moments[|moments| - 1];
      if Enters(StatusIn(After(before), id), StatusIn(After(moments), id), statuses) then Some(last.at)
      else LastEntry(before, id, statuses)
  }

  predicate Enters(from: Option<Status>, to: Option<Status>, statuses: set<Status>) {
    to.Some? && to.value in statuses && !(from.Some? && from.value in statuses)
  }

  const OVER: set<Status> := {Completed, Cancelled, Failed}

  lemma StampsNext(rows: Table, write: Write, now: Time, id: RunId)
    requires id in Next(rows, write, now)
    ensures var from, row := StatusIn(rows, id), Next(rows, write, now)[id];
      && row.startedAt == (if Enters(from, Some(row.status), {Running}) then Some(now)
                           else if id in rows then rows[id].startedAt else None)
      && row.completedAt == (if Enters(from, Some(row.status), OVER) then Some(now)
                             else if id in rows then rows[id].completedAt else None)
  {
  }

  lemma {:induction false} NeverEntered(moments: seq<Moment>, id: RunId, statuses: set<Status>)
    requires id !in After(moments)
    ensures LastEntry(moments, id, statuses).None?
  {
    if moments != [] {
      NeverEntered(moments[..|moments| - 1], id, statuses);
    }
  }

  /** `started_at` is when the run was last marked running, and `completed_at` when it was last over, whether or not
      it has been reopened since. */
  lemma {:induction false} StampsAreLastEntries(moments: seq<Moment>, id: RunId)
    requires id in After(moments)
    ensures After(moments)[id].startedAt == LastEntry(moments, id, {Running})
    ensures After(moments)[id].completedAt == LastEntry(moments, id, OVER)
  {
    hide Next, Enters;
    var before, last := moments[..|moments| - 1], moments[|moments| - 1];
    StampsNext(After(before), last.write, last.at, id);
    if id in After(before) {
      StampsAreLastEntries(before, id);
    } else {
      NeverEntered(before, id, {Running});
      NeverEntered(before, id, OVER);
    }
  }

  // --------------------------------------------------------------------------------------- the birth

  lemma BirthNext(rows: Table, write: Write, now: Time, id: RunId)
    requires id in Next(rows, write, now)
    ensures var row := Next(rows, write, now)[id];
      if id in rows then row.thread == rows[id].thread && row.createdAt == rows[id].createdAt
      else write == Create(id, row.thread) && row.createdAt == now
  {
  }

  /** A run stays on the thread it was created on, and keeps the time it was created at, through every write. */
  lemma {:induction false} BirthIsForGood(moments: seq<Moment>, n: nat, id: RunId)
    requires n < |moments| && id !in After(moments[..n]) && id in After(moments[..n + 1])
    ensures id in After(moments)
    ensures moments[n].write == Create(id, After(moments)[id].thread) && After(moments)[id].createdAt == moments[n].at
  {
    hide Next;
    var last := |moments| - 1;
    assert moments[..last + 1] == moments;
    assert moments[..n + 1][..n] == moments[..n];
    if n < last {
      assert moments[..last][..n] == moments[..n] && moments[..last][..n + 1] == moments[..n + 1];
      BirthIsForGood(moments[..last], n, id);
      RowsStay(After(moments[..last]), moments[last].write, moments[last].at, id);
    }
    BirthNext(After(moments[..last]), moments[last].write, moments[last].at, id);
  }

  lemma RowsStay(rows: Table, write: Write, now: Time, id: RunId)
    requires id in rows
    ensures id in Next(rows, write, now)
  {
  }
}

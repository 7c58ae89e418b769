/**
 The doors in front of a thread's queue: each counts the queued runs and later, without a lock in
 between, creates one more. How far past the limit that can go, and that it does go that far.
 */
module Doors {
  import opened Basics
  import opened Statuses

  type Door = nat

  /** `log` is every write so far; `passed` are the doors between their check and their create. */
  datatype Hall = Hall(log: seq<Statuses.Moment>, passed: map<Door, ThreadId>) {
    function Rows(): Table {
      After(log)
    }
  }

  datatype Move =
    | Check(door: Door, thread: ThreadId)
    | Admit(door: Door, id: RunId, at: Time)
    | Abort(door: Door)
    | Other(write: Write, at: Time)

  function QueuedOn(rows: Table, thread: ThreadId): set<RunId> {
    set id | id in rows && rows[id].thread == thread && rows[id].status == Queued
  }

  /** A reopen, guarded or not, that takes the run from some other status back to queued. */
  predicate Requeues(rows: Table, write: Write, id: RunId) {
    && write.Reopen? && write.id == id && id in rows && rows[id].status != Queued
    && (write.expected.None? || write.expected.value == rows[id].status)
  }

  predicate EverRequeued(log: seq<Statuses.Moment>, id: RunId) {
    log != []
    && (EverRequeued(log[..|log| - 1], id) || Requeues(After(log[..|log| - 1]), log[|log| - 1].write, id))
  }

  /** The thread's queued runs that no reopen put back there. */
  function FreshOn(hall: Hall, thread: ThreadId): set<RunId> {
    set id | id in QueuedOn(hall.Rows(), thread) && !EverRequeued(hall.log, id)
  }

  function PassedOn(hall: Hall, thread: ThreadId): set<Door> {
    set d | d in hall.passed && hall.passed[d] == thread
  }

  /** `ensure_queue_room` lets a door through. */
  predicate HasQueueRoom(rows: Table, thread: ThreadId, limit: Option<int>) {
    limit.Some? ==> |QueuedOn(rows, thread)| < limit.value
  }

  /** Runs are created behind a door only, under an id never used; every other write is free. */
  predicate Allowed(hall: Hall, move: Move) {
    match move
    case Check(door, _) => door !in hall.passed
    case Admit(door, id, _) => door in hall.passed && id !in hall.Rows()
    case Abort(door) => door in hall.passed
    case Other(write, _) => !write.Create?
  }

  function Log(hall: Hall, write: Write, at: Time): seq<Statuses.Moment> {
    hall.log + [Statuses.Moment(write, at)]
  }

  function Moved(limit: Option<int>, hall: Hall, move: Move): Hall
    requires Allowed(hall, move)
  {
    match move
    case Check(door, thread) =>
      if HasQueueRoom(hall.Rows(), thread, limit) then hall.(passed := hall.passed[door := thread]) else hall
    case Admit(door, id, at) =>
      Hall(Log(hall, Create(id, hall.passed[door]), at), hall.passed - {door})
    case Abort(door) => hall.(passed := hall.passed - {door})
    case Other(write, at) => hall.(log := Log(hall, write, at))
  }

  /** The halls a sequence of moves goes through. */
  predicate Visit(limit: Option<int>, halls: seq<Hall>, moves: seq<Move>) {
    && |halls| == |moves| + 1
    && halls[0] == Hall([], map[])
    && forall i :: 0 <= i < |moves| ==> Allowed(halls[i], moves[i]) && halls[i + 1] == Moved(limit, halls[i], moves[i])
  }

  function Overshot(limit: int, doors: nat): int {
    if limit >= 1 then limit - 1 + doors else 0
  }

  lemma LoggedRows(hall: Hall, write: Write, at: Time)
    ensures After(Log(hall, write, at)) == Next(hall.Rows(), write, at)
    ensures forall id :: EverRequeued(Log(hall, write, at), id)
                    <==> EverRequeued(hall.log, id) || Requeues(hall.Rows(), write, id)
  {
    var log := Log(hall, write, at);
    assert log[..|log| - 1] == hall.log;
  }

  /** Where reopens carry their guard, the runs put back are those of the replies that won. */
  lemma {:induction false} RequeuedByReplies(log: seq<Statuses.Moment>, id: RunId)
    requires AllGuarded(log)
    ensures EverRequeued(log, id) <==> WonReplies(log, id) > 0
  {
    if log != [] {
      assert log[|log| - 1] in log;
      RequeuedByReplies(log[..|log| - 1], id);
    }
  }

  lemma OthersAddNothing(hall: Hall, write: Write, at: Time, thread: ThreadId)
    requires !write.Create?
    ensures FreshOn(hall.(log := Log(hall, write, at)), thread) <= FreshOn(hall, thread)
  {
    LoggedRows(hall, write, at);
  }

  lemma AdmitAddsOne(hall: Hall, door: Door, id: RunId, at: Time, thread: ThreadId)
    requires Allowed(hall, Admit(door, id, at))
    ensures var next := Moved(None, hall, Admit(door, id, at));
      FreshOn(next, thread) <= FreshOn(hall, thread) + (if hall.passed[door] == thread then {id} else {})
  {
    LoggedRows(hall, Create(id, hall.passed[door]), at);
  }

  lemma Fewer<T>(a: set<T>, b: set<T>)
    requires a <= b
    ensures |a| <= |b|
  {
    assert b == a + (b - a);
  }

  lemma MoveKeepsBound(limit: int, doors: nat, hall: Hall, move: Move, thread: ThreadId)
    requires Allowed(hall, move)
    requires |PassedOn(Moved(Some(limit), hall, move), thread)| <= doors
    requires |FreshOn(hall, thread)| + |PassedOn(hall, thread)| <= Overshot(limit, doors)
    ensures var next := Moved(Some(limit), hall, move);
      |FreshOn(next, thread)| + |PassedOn(next, thread)| <= Overshot(limit, doors)
  {
    hide QueuedOn, FreshOn, PassedOn, HasQueueRoom, Overshot;
    var next := Moved(Some(limit), hall, move);
    match move
    case Check(door, at) => CheckKeepsBound(limit, doors, hall, door, at, thread);
    case Admit(door, id, at) => AdmitSwaps(limit, hall, door, id, at, thread);
    case Abort(door) =>
      PassedOnly(hall, next, thread);
      SameFresh(hall, next, thread);
    case Other(write, at) =>
      OthersAddNothing(hall, write, at, thread);
      Fewer(FreshOn(next, thread), FreshOn(hall, thread));
      PassedOnly(hall, next, thread);
  }

  lemma PassedOnly(hall: Hall, next: Hall, thread: ThreadId)
    requires next.passed.Keys <= hall.passed.Keys && forall d :: d in next.passed ==> next.passed[d] == hall.passed[d]
    ensures |PassedOn(next, thread)| <= |PassedOn(hall, thread)|
  {
    Fewer(PassedOn(next, thread), PassedOn(hall, thread));
  }

  /** A check that lets a door through found room for all that is fresh. */
  lemma CheckKeepsBound(limit: int, doors: nat, hall: Hall, door: Door, at: ThreadId, thread: ThreadId)
    requires Allowed(hall, Check(door, at))
    requires |PassedOn(Moved(Some(limit), hall, Check(door, at)), thread)| <= doors
    requires |FreshOn(hall, thread)| + |PassedOn(hall, thread)| <= Overshot(limit, doors)
    ensures var next := Moved(Some(limit), hall, Check(door, at));
      |FreshOn(next, thread)| + |PassedOn(next, thread)| <= Overshot(limit, doors)
  {
    hide QueuedOn, FreshOn;
    var next := Moved(Some(limit), hall, Check(door, at));
    SameFresh(hall, next, thread);
    FreshIsQueued(hall, thread);
    assert at != thread ==> PassedOn(next, thread) == PassedOn(hall, thread);
  }

  /** A door that creates its run has passed no longer. */
  lemma AdmitSwaps(limit: int, hall: Hall, door: Door, id: RunId, at: Time, thread: ThreadId)
    requires Allowed(hall, Admit(door, id, at))
    ensures var next := Moved(Some(limit), hall, Admit(door, id, at));
      |FreshOn(next, thread)| + |PassedOn(next, thread)| <= |FreshOn(hall, thread)| + |PassedOn(hall, thread)|
  {
    hide FreshOn;
    var next := Moved(Some(limit), hall, Admit(door, id, at));
    AdmitAddsOne(hall, door, id, at, thread);
    if hall.passed[door] == thread {
      Fewer(FreshOn(next, thread), FreshOn(hall, thread) + {id});
      assert PassedOn(next, thread) == PassedOn(hall, thread) - {door};
    } else {
      Fewer(FreshOn(next, thread), FreshOn(hall, thread));
      assert PassedOn(next, thread) == PassedOn(hall, thread);
    }
  }

  lemma FreshIsQueued(hall: Hall, thread: ThreadId)
    ensures |FreshOn(hall, thread)| <= |QueuedOn(hall.Rows(), thread)|
  {
    Fewer(FreshOn(hall, thread), QueuedOn(hall.Rows(), thread));
  }

  lemma SameFresh(hall: Hall, next: Hall, thread: ThreadId)
    requires next.log == hall.log
    ensures FreshOn(next, thread) == FreshOn(hall, thread)
  {
  }

  /** With at most `doors` doors ever between check and create on a thread, its queued runs, not counting
      reopened ones, never exceed `limit - 1 + doors`; a limit below one lets nothing in at all. */
  lemma {:induction false} QueueOvershoot(limit: int, doors: nat, halls: seq<Hall>, moves: seq<Move>,
                                          thread: ThreadId, n: nat)
    requires Visit(Some(limit), halls, moves) && n <= |moves|
    requires NeverMore(halls, thread, doors)
    ensures |FreshOn(halls[n], thread)| + |PassedOn(halls[n], thread)| <= Overshot(limit, doors)
  {
    if n == 0 {
      assert FreshOn(halls[0], thread) == {} && PassedOn(halls[0], thread) == {};
    } else {
      QueueOvershoot(limit, doors, halls, moves, thread, n - 1);
      assert halls[n - 1 + 1] in halls;
      MoveKeepsBound(limit, doors, halls[n - 1], moves[n - 1], thread);
    }
  }

  /** The thread's queued runs that no reply has ever put back. */
  function UnansweredOn(hall: Hall, thread: ThreadId): set<RunId> {
    set id | id in QueuedOn(hall.Rows(), thread) && WonReplies(hall.log, id) == 0
  }

  /** Where every reopen carries its guard, the runs not counted are exactly those that a winning reply put back. */
  lemma GuardedOvershoot(limit: int, doors: nat, halls: seq<Hall>, moves: seq<Move>, thread: ThreadId, n: nat)
    requires Visit(Some(limit), halls, moves) && n <= |moves|
    requires NeverMore(halls, thread, doors) && AllGuarded(halls[n].log)
    ensures |UnansweredOn(halls[n], thread)| + |PassedOn(halls[n], thread)| <= Overshot(limit, doors)
  {
    hide QueuedOn, WonReplies, EverRequeued, PassedOn, Overshot, Visit, NeverMore;
    VisitedHalls(limit, halls, moves);
    QueueOvershoot(limit, doors, halls, moves, thread, n);
    assert UnansweredOn(halls[n], thread) == FreshOn(halls[n], thread) by {
      forall id ensures EverRequeued(halls[n].log, id) <==> WonReplies(halls[n].log, id) > 0 {
        RequeuedByReplies(halls[n].log, id);
      }
    }
  }

  lemma VisitedHalls(limit: int, halls: seq<Hall>, moves: seq<Move>)
    requires Visit(Some(limit), halls, moves)
    ensures |halls| == |moves| + 1
  {
  }

  // ------------------------------------------------------------------------ the bound is reached

  function Id(n: nat): RunId {
    seq(n, _ => 'r')
  }

  function Ids(n: nat): set<RunId> {
    set i | 0 <= i < n :: Id(i)
  }

  lemma {:induction false} DistinctIds(n: nat)
    ensures |Ids(n)| == n && Id(n) !in Ids(n)
  {
    if n > 0 {
      DistinctIds(n - 1);
      assert Ids(n) == Ids(n - 1) + {Id(n - 1)};
    }
    forall i | 0 <= i < n ensures Id(i) != Id(n) {
      assert |Id(i)| == i && |Id(n)| == n;
    }
  }

  function Between(first: nat, last: nat): (doors: set<Door>)
    ensures forall d :: d in doors <==> first <= d < last
    ensures |doors| == if first <= last then last - first else 0
    decreases last
  {
    if first < last then Between(first, last - 1) + {last - 1} else {}
  }

  /** `n` runs queued on the thread, and the doors from `first` up to `last` past their check. */
  predicate Crowd(hall: Hall, thread: ThreadId, n: nat, first: nat, last: nat) {
    && hall.Rows().Keys == Ids(n) && QueuedOn(hall.Rows(), thread) == Ids(n)
    && (forall id :: id in Ids(n) ==> !EverRequeued(hall.log, id))
    && hall.passed.Keys == Between(first, last) && PassedOn(hall, thread) == Between(first, last)
  }

  lemma CrowdSize(hall: Hall, thread: ThreadId, n: nat, first: nat, last: nat)
    requires Crowd(hall, thread, n, first, last) && first <= last
    ensures |FreshOn(hall, thread)| == |QueuedOn(hall.Rows(), thread)| == n && |PassedOn(hall, thread)| == last - first
  {
    DistinctIds(n);
    assert FreshOn(hall, thread) == Ids(n);
  }

  lemma CrowdChecks(limit: int, hall: Hall, thread: ThreadId, n: nat, first: nat, last: nat)
    requires Crowd(hall, thread, n, first, last) && first <= last && n < limit
    ensures Allowed(hall, Check(last, thread))
    ensures Crowd(Moved(Some(limit), hall, Check(last, thread)), thread, n, first, last + 1)
  {
    hide Ids, FreshOn, QueuedOn, After, EverRequeued;
    CrowdSize(hall, thread, n, first, last);
    var next := Moved(Some(limit), hall, Check(last, thread));
    assert Between(first, last + 1) == Between(first, last) + {last};
    assert PassedOn(next, thread) == PassedOn(hall, thread) + {last};
  }

  /** The rows of a crowd after one more create. */
  lemma CrowdRowsGrow(hall: Hall, thread: ThreadId, n: nat, at: Time)
    requires hall.Rows().Keys == Ids(n) && QueuedOn(hall.Rows(), thread) == Ids(n)
    requires forall id :: id in Ids(n) ==> !EverRequeued(hall.log, id)
    ensures Id(n) !in hall.Rows()
    ensures var log := Log(hall, Create(Id(n), thread), at);
      && After(log).Keys == Ids(n + 1) && QueuedOn(After(log), thread) == Ids(n + 1)
      && forall id :: id in Ids(n + 1) ==> !EverRequeued(log, id)
  {
    hide After, EverRequeued, Id;
    DistinctIds(n);
    LoggedRows(hall, Create(Id(n), thread), at);
    assert Ids(n + 1) == Ids(n) + {Id(n)};
    NeverCreatedNeverRequeued(hall.log, Id(n));
    var log := Log(hall, Create(Id(n), thread), at);
    assert After(log) == hall.Rows()[Id(n) := NewRow(thread, at)];
    assert QueuedOn(After(log), thread) == QueuedOn(hall.Rows(), thread) + {Id(n)};
  }

  lemma CrowdAdmits(limit: int, hall: Hall, thread: ThreadId, n: nat, first: nat, last: nat, at: Time)
    requires Crowd(hall, thread, n, first, last) && first < last
    ensures Allowed(hall, Admit(first, Id(n), at))
    ensures Crowd(Moved(Some(limit), hall, Admit(first, Id(n), at)), thread, n + 1, first + 1, last)
  {
    hide After, EverRequeued, Id, Ids, Between, HasQueueRoom, QueuedOn, PassedOn;
    CrowdRowsGrow(hall, thread, n, at);
    FirstLeaves(hall, first, last, thread);
  }

  lemma FirstLeaves(hall: Hall, first: nat, last: nat, thread: ThreadId)
    requires first < last && hall.passed.Keys == Between(first, last) && PassedOn(hall, thread) == Between(first, last)
    ensures first in hall.passed && hall.passed[first] == thread
    ensures forall log :: var next := Hall(log, hall.passed - {first});
              next.passed.Keys == Between(first + 1, last) && PassedOn(next, thread) == Between(first + 1, last)
  {
    hide Between;
    assert first in PassedOn(hall, thread);
    assert Between(first + 1, last) == Between(first, last) - {first};
    forall log ensures PassedOn(Hall(log, hall.passed - {first}), thread) == Between(first + 1, last) {
      assert PassedOn(Hall(log, hall.passed - {first}), thread) == PassedOn(hall, thread) - {first};
    }
  }

  lemma {:induction false} NeverCreatedNeverRequeued(log: seq<Statuses.Moment>, id: RunId)
    requires id !in After(log)
    ensures !EverRequeued(log, id)
  {
    if log != [] {
      NeverCreatedNeverRequeued(log[..|log| - 1], id);
    }
  }

  lemma VisitOneMore(limit: int, halls: seq<Hall>, moves: seq<Move>, move: Move)
    requires Visit(Some(limit), halls, moves) && Allowed(halls[|moves|], move)
    ensures Visit(Some(limit), halls + [Moved(Some(limit), halls[|moves|], move)], moves + [move])
  {
  }

  predicate NeverMore(halls: seq<Hall>, thread: ThreadId, doors: nat) {
    forall hall :: hall in halls ==> |PassedOn(hall, thread)| <= doors
  }

  /** The bound is exact: `doors` doors that all checked before any of them created overshoot by `doors - 1`. */
  lemma OvershootIsReached(limit: int, doors: nat, thread: ThreadId) returns (halls: seq<Hall>, moves: seq<Move>)
    requires limit >= 1 && doors >= 1
    ensures Visit(Some(limit), halls, moves)
    ensures NeverMore(halls, thread, doors)
    ensures |FreshOn(halls[|moves|], thread)| == limit - 1 + doors
  {
    hide Moved, Allowed, FreshOn, PassedOn, Crowd;
    halls, moves := [Hall([], map[])], [];
    EmptyCrowd(thread, 0);
    var n := 0;
    while n < limit - 1
      invariant 0 <= n <= limit - 1 && Visit(Some(limit), halls, moves) && NeverMore(halls, thread, doors)
      invariant Crowd(halls[|moves|], thread, n, n, n)
    {
      halls, moves := OneCheck(limit, doors, halls, moves, thread, n, n, n);
      halls, moves := OneAdmit(limit, doors, halls, moves, thread, n, n, n + 1);
      n := n + 1;
    }
    var last := n;
    while last < n + doors
      invariant n <= last <= n + doors && Visit(Some(limit), halls, moves) && NeverMore(halls, thread, doors)
      invariant Crowd(halls[|moves|], thread, n, n, last)
    {
      halls, moves := OneCheck(limit, doors, halls, moves, thread, n, n, last);
      last := last + 1;
    }
    var first := n;
    while first < last
      invariant n <= first <= last && Visit(Some(limit), halls, moves) && NeverMore(halls, thread, doors)
      invariant Crowd(halls[|moves|], thread, first, first, last)
    {
      halls, moves := OneAdmit(limit, doors, halls, moves, thread, first, first, last);
      first := first + 1;
    }
    CrowdSize(halls[|moves|], thread, first, first, last);
  }

  lemma EmptyCrowd(thread: ThreadId, doors: nat)
    ensures var hall := Hall([], map[]); Crowd(hall, thread, 0, 0, 0) && |PassedOn(hall, thread)| <= doors
  {
    assert PassedOn(Hall([], map[]), thread) == {};
  }

  lemma OneCheck(limit: int, doors: nat, halls: seq<Hall>, moves: seq<Move>, thread: ThreadId,
                 n: nat, first: nat, last: nat)
    returns (halls': seq<Hall>, moves': seq<Move>)
    requires Visit(Some(limit), halls, moves) && NeverMore(halls, thread, doors)
    requires Crowd(halls[|moves|], thread, n, first, last) && first <= last < first + doors && n < limit
    ensures Visit(Some(limit), halls', moves') && NeverMore(halls', thread, doors)
    ensures Crowd(halls'[|moves'|], thread, n, first, last + 1)
  {
    hide Moved, Allowed, FreshOn, Crowd, PassedOn;
    var hall, move := halls[|moves|], Check(last, thread);
    CrowdChecks(limit, hall, thread, n, first, last);
    var next := Moved(Some(limit), hall, move);
    VisitOneMore(limit, halls, moves, move);
    CrowdSize(next, thread, n, first, last + 1);
    halls', moves' := halls + [next], moves + [move];
  }

  lemma OneAdmit(limit: int, doors: nat, halls: seq<Hall>, moves: seq<Move>, thread: ThreadId,
                 n: nat, first: nat, last: nat)
    returns (halls': seq<Hall>, moves': seq<Move>)
    requires Visit(Some(limit), halls, moves) && NeverMore(halls, thread, doors)
    requires Crowd(halls[|moves|], thread, n, first, last) && first < last <= first + doors
    ensures Visit(Some(limit), halls', moves') && NeverMore(halls', thread, doors)
    ensures Crowd(halls'[|moves'|], thread, n + 1, first + 1, last)
  {
    hide Moved, Allowed, FreshOn, Crowd, PassedOn, Id;
    var hall, move := halls[|moves|], Admit(first, Id(n), 0);
    CrowdAdmits(limit, hall, thread, n, first, last, 0);
    var next := Moved(Some(limit), hall, move);
    VisitOneMore(limit, halls, moves, move);
    CrowdSize(next, thread, n + 1, first + 1, last);
    halls', moves' := halls + [next], moves + [move];
  }
}

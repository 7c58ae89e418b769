/** What a round leaves in the database: the run's status, the thread's reply, the rounds in one log. */
module PipelineRecords {
  import opened Basics
  import opened Events
  import opened Statuses
  import opened PipelineSpec
  import opened PipelineMeaning
  import PipelineStream
  import Reduce
  import A2A

  // -------------------------------------------------------------------------------- the status

  /** The row of an unswept run that has taken these commands, none of them deciding. */
  function Progress(taken: seq<Command>): (status: Status)
    ensures status == Queued || status == Running || status == Status.Cancelling
  {
    if taken == [] then Queued
    else
      var before, last := Progress(taken[..|taken| - 1]), taken[|taken| - 1];
      if last.Claim? && before == Queued then Running
      else if last.RequestCancel? && before == Running then Status.Cancelling
      else before
  }

  predicate Unswept(turns: seq<Turn>) {
    forall turn :: turn in turns ==> turn.sweeps == []
  }

  predicate BeginsWithClaim(commands: seq<Command>) {
    commands != [] ==> commands[0].Claim?
  }

  lemma SweptOrNot(row: Row, sweeps: seq<Clause>, now: Time)
    ensures Swept(row, sweeps, now).status in {row.status, Failed}
    ensures sweeps == [] ==> Swept(row, sweeps, now) == row
  {
  }

  lemma ProgressOneMore(commands: seq<Command>, n: nat)
    requires n < |commands|
    ensures Progress(commands[..n + 1])
         == (var before := Progress(commands[..n]);
             if commands[n].Claim? && before == Queued then Running
             else if commands[n].RequestCancel? && before == Running then Status.Cancelling
             else before)
  {
    assert commands[..n + 1][..n] == commands[..n];
  }

  lemma {:induction false} ProgressOnceClaimed(commands: seq<Command>, n: nat)
    requires BeginsWithClaim(commands) && n <= |commands|
    ensures Progress(commands[..n]) == if n == 0 then Queued
                                       else if RequestCancel in commands[..n] then Status.Cancelling else Running
  {
    if n > 0 {
      ProgressOnceClaimed(commands, n - 1);
      ProgressOneMore(commands, n - 1);
      assert commands[..n] == commands[..n - 1] + [commands[n - 1]];
    }
  }

  /** Before the end the row is where the commands taken put it, unless a sweep failed it. */
  predicate OnItsWay(t: Round, taken: seq<Command>, swept: bool) {
    t.row.status == Progress(taken) || (swept && t.row.status == Failed)
  }

  predicate Settles(t: Round, commands: seq<Command>, swept: bool) {
    && FirstDeciding(commands) < |commands|
    && (t.row.status == ExpectedStatus(commands, t.cancelRequested) || (swept && t.row.status == Failed))
  }

  /** How far the loop has read: past everything taken, or up to the malformed event. */
  predicate ReadUpTo(s: Round, t: Round, commands: seq<Command>, n: nat) {
    && n <= |commands|
    && ((Reading(s, t, commands) && n == TakenSoFar(t, commands))
        || (Doomed(s, t, commands) && n == FirstDeciding(commands)))
  }

  ghost predicate RowFits(s: Round, t: Round, commands: seq<Command>, swept: bool) {
    if t.ended then Settles(t, commands, swept)
    else exists n: nat :: ReadUpTo(s, t, commands, n) && OnItsWay(t, commands[..n], swept)
  }

  lemma MarkedStatus(row: Row, to: Status, now: Time)
    ensures MarkedRow(row, to, now).status == if Legal(row.status, to) then to else row.status
  {
    hide Legal;
  }

  /** The status a handler leaves: the one it asks for, if the table allows it and the write is not lost. */
  lemma HandlerStatus(t: Round, cmd: Command, fault: Fault, now: Time)
    ensures var status := t.row.status;
      Handled(t, cmd, fault, now).row.status == (match cmd
        case Claim => if Legal(status, Running) && !Raises(fault, 0) then Running else status
        case RelayEvent(_) => status
        case FinishStream => if Legal(status, Target(t)) && !Raises(fault, 0) then Target(t) else status
        case RequestCancel =>
          var to := if t.claimed then Status.Cancelling else Cancelled;
          if Legal(status, to) && !Raises(fault, 0) then to else status
        case Fail(_) => if Legal(status, Failed) && !Raises(fault, 1) then Failed else status)
  {
    hide MarkedRow, Replied, Target, Legal, OwesReply, OwesError, InterruptOutcomeOf, Raises;
    match cmd
    case Claim => MarkedStatus(t.row, Running, now);
    case FinishStream => MarkedStatus(t.row, Target(t), now);
    case RequestCancel => MarkedStatus(t.row, if t.claimed then Status.Cancelling else Cancelled, now);
    case Fail(_) => MarkedStatus(t.row, Failed, now);
    case _ =>
  }

  lemma HandledRow(t: Round, cmd: Command, now: Time)
    ensures var u := Handled(t, cmd, None, now);
      u.row.status == (match cmd
        case Claim => if t.row.status == Queued then Running else t.row.status
        case RelayEvent(_) => t.row.status
        case FinishStream => if Legal(t.row.status, Target(t)) then Target(t) else t.row.status
        case RequestCancel =>
          var to := if t.claimed then Status.Cancelling else Cancelled;
          if Legal(t.row.status, to) then to else t.row.status
        case Fail(_) => if Legal(t.row.status, Failed) then Failed else t.row.status)
  {
    hide Handled, Target;
    HandlerStatus(t, cmd, None, now);
  }

  lemma ArrivalsFit(s: Round, t: Round, commands: seq<Command>, turn: Turn, swept: bool)
    requires Stands(s, t, commands) && !t.ended && RowFits(s, t, commands, swept)
    ensures RowFits(s, Interfered(t, turn), commands + turn.arrivals, swept || turn.sweeps != [])
  {
    var n: nat :| ReadUpTo(s, t, commands, n) && OnItsWay(t, commands[..n], swept);
    var ready, all := Interfered(t, turn), commands + turn.arrivals;
    assert all[..n] == commands[..n];
    SweptOrNot(t.row, turn.sweeps, turn.now);
    ArrivalsStand(s, t, commands, turn);
    FirstDecidingGrows(commands, turn.arrivals);
    if Doomed(s, t, commands) {
      DoomedStays(s, t, commands, turn);
    }
    hide Reading, Doomed, Stands, Progress, Swept;
    assert ReadUpTo(s, ready, all, n);
  }

  lemma ReadOnFits(s: Round, t: Round, commands: seq<Command>, turn: Turn, swept: bool, n: nat)
    requires t.claimed && |s.log| <= |t.log| && !t.ended && Reading(s, t, commands) && t.inQueue != []
    requires turn.fault.None? && !Deciding(t.inQueue[0])
    requires n == TakenSoFar(t, commands) && OnItsWay(t, commands[..n], swept)
    ensures !Taken(t, turn).ended && RowFits(s, Taken(t, turn), commands, swept)
  {
    var cmd := t.inQueue[0];
    assert cmd == commands[n];
    ReadOn(s, t, commands, turn);
    var rest := t.(inQueue := t.inQueue[1..]);
    HandledRow(rest, cmd, turn.now);
    HandlerEmits(rest, cmd, None, turn.now);
    ProgressOneMore(commands, n);
    var u := Taken(t, turn);
    hide Handled, Reading, Doomed, Progress;
    assert ReadUpTo(s, u, commands, n + 1) && OnItsWay(u, commands[..n + 1], swept);
  }

  lemma MalformedFits(s: Round, t: Round, commands: seq<Command>, turn: Turn, swept: bool, n: nat)
    requires t.claimed && |s.log| <= |t.log| && !t.ended && Reading(s, t, commands) && t.inQueue != []
    requires Malformed(t.inQueue[0])
    requires n == TakenSoFar(t, commands) && OnItsWay(t, commands[..n], swept)
    ensures !Taken(t, turn).ended && RowFits(s, Taken(t, turn), commands, swept)
  {
    assert t.inQueue[0] == commands[n] && n == FirstDeciding(commands);
    MeetMalformed(s, t, commands, turn);
    assert ReadUpTo(s, Taken(t, turn), commands, n);
  }

  lemma SameTarget(t: Round, rest: Round)
    requires rest == t.(inQueue := rest.inQueue)
    ensures Target(rest) == Target(t)
  {
  }

  /** A closing command asks for the status its commands deserve. */
  lemma CloserAsks(s: Round, t: Round, commands: seq<Command>, n: nat)
    requires t.inQueue != [] && ReadUpTo(s, t, commands, n) && BeginsWithClaim(commands)
    requires (Reading(s, t, commands) && (t.inQueue[0].FinishStream? || t.inQueue[0].Fail?)) || Doomed(s, t, commands)
    ensures 0 < n == FirstDeciding(commands) < |commands|
    ensures t.inQueue[0].FinishStream? || t.inQueue[0].Fail?
    ensures ExpectedStatus(commands, t.cancelRequested) == if t.inQueue[0].Fail? then Failed else Target(t)
  {
    hide Relayed, EventsOf, AnyFinished, AnyError, AnyAsking, Target;
    var cmd := t.inQueue[0];
    if Reading(s, t, commands) && n == TakenSoFar(t, commands) {
      assert cmd == commands[n];
      TargetIsDeserved(s, t, commands);
    }
    hide Reading, Deserved;
  }

  /** The row a closing command leaves. */
  lemma ClosedRow(t: Round, turn: Turn)
    requires t.claimed && t.inQueue != [] && turn.fault.None? && (t.inQueue[0].FinishStream? || t.inQueue[0].Fail?)
    ensures var u, wanted := Taken(t, turn), if t.inQueue[0].Fail? then Failed else Target(t);
      && u.row.status == (if Legal(t.row.status, wanted) then wanted else t.row.status)
      && u.cancelRequested == t.cancelRequested && u.ended
  {
    hide Handled, Target;
    var rest := t.(inQueue := t.inQueue[1..]);
    HandledRow(rest, t.inQueue[0], turn.now);
    HandlerEmits(rest, t.inQueue[0], None, turn.now);
    SameTarget(t, rest);
  }

  lemma CloseFits(s: Round, t: Round, commands: seq<Command>, turn: Turn, swept: bool, n: nat)
    requires t.claimed && |s.log| <= |t.log| && !t.ended && t.inQueue != [] && turn.fault.None?
    requires (Reading(s, t, commands) && (t.inQueue[0].FinishStream? || t.inQueue[0].Fail?)) || Doomed(s, t, commands)
    requires ReadUpTo(s, t, commands, n) && OnItsWay(t, commands[..n], swept) && BeginsWithClaim(commands)
    ensures Taken(t, turn).ended && RowFits(s, Taken(t, turn), commands, swept)
  {
    hide Taken, Progress, Target, Reading, Doomed, FirstDeciding, ExpectedStatus;
    CloserAsks(s, t, commands, n);
    ClosedRow(t, turn);
    ProgressOnceClaimed(commands, n);
    assert t.row.status == Running || t.row.status == Status.Cancelling || (swept && t.row.status == Failed);
    TargetsAre(t);
  }

  lemma TargetsAre(t: Round)
    ensures Target(t) in {InputRequired, Completed, Cancelled, Failed}
  {
  }

  lemma TakenFits(s: Round, t: Round, commands: seq<Command>, turn: Turn, swept: bool)
    requires Stands(s, t, commands) && !t.ended && RowFits(s, t, commands, swept) && t.inQueue != []
    requires turn.fault.None? && BeginsWithClaim(commands)
    ensures RowFits(s, Taken(t, turn), commands, swept)
  {
    hide Taken, Handled, Reading, Doomed, OnItsWay, Relayed;
    var n: nat :| ReadUpTo(s, t, commands, n) && OnItsWay(t, commands[..n], swept);
    if Doomed(s, t, commands) || t.inQueue[0].FinishStream? || t.inQueue[0].Fail? {
      CloseFits(s, t, commands, turn, swept, n);
    } else if Malformed(t.inQueue[0]) {
      MalformedFits(s, t, commands, turn, swept, n);
    } else {
      ReadOnFits(s, t, commands, turn, swept, n);
    }
  }

  lemma SettlesStays(t: Round, commands: seq<Command>, more: seq<Command>, swept: bool, sweptNow: bool)
    requires Settles(t, commands, swept) && (swept ==> sweptNow)
    ensures Settles(t, commands + more, sweptNow)
  {
    FirstDecidingGrows(commands, more);
    assert (commands + more)[..FirstDeciding(commands)] == commands[..FirstDeciding(commands)];
  }

  lemma TurnFits(s: Round, t: Round, commands: seq<Command>, turn: Turn, swept: bool)
    requires Stands(s, t, commands) && RowFits(s, t, commands, swept) && turn.fault.None?
    requires BeginsWithClaim(commands + turn.arrivals)
    ensures RowFits(s, AfterTurn(t, turn), commands + turn.arrivals, swept || turn.sweeps != [])
  {
    var all, after := commands + turn.arrivals, swept || turn.sweeps != [];
    if t.ended {
      SettlesStays(t, commands, turn.arrivals, swept, after);
    } else {
      var ready := Interfered(t, turn);
      ArrivalsStand(s, t, commands, turn);
      ArrivalsFit(s, t, commands, turn, swept);
      assert !ready.ended;
      hide Taken, Interfered, Stands, RowFits;
      if ready.inQueue != [] {
        TakenFits(s, ready, all, turn, after);
      }
    }
  }

  lemma {:induction false} RoundFits(s: Round, turns: seq<Turn>)
    requires Begins(s) && s.claimed && s.row.status == Queued && Clean(turns) && BeginsWithClaim(Arrived(turns))
    ensures Stands(s, Run(s, turns), Arrived(turns)) && RowFits(s, Run(s, turns), Arrived(turns), !Unswept(turns))
  {
    hide RowFits, AfterTurn, Begins, Stands;
    RoundStands(s, turns);
    if turns == [] {
      FitsAtTheStart(s);
    } else {
      var before, last := turns[..|turns| - 1], turns[|turns| - 1];
      assert turns == before + [last];
      CleanBefore(before, last);
      SweptTurns(before, last);
      RoundStands(s, before);
      RoundFits(s, before);
      TurnFits(s, Run(s, before), Arrived(before), last, !Unswept(before));
    }
  }

  lemma FitsAtTheStart(s: Round)
    requires Begins(s) && s.row.status == Queued
    ensures RowFits(s, s, [], false)
  {
    assert NewEntries(s, s) == [];
    assert ReadUpTo(s, s, [], 0);
  }

  lemma CleanBefore(before: seq<Turn>, last: Turn)
    requires Clean(before + [last]) && BeginsWithClaim(Arrived(before + [last]))
    ensures Clean(before) && last.fault.None? && BeginsWithClaim(Arrived(before))
  {
    assert forall turn :: turn in before || turn == last ==> turn in before + [last];
    assert (before + [last])[..|before|] == before;
    assert Arrived(before + [last]) == Arrived(before) + last.arrivals;
  }

  predicate Settled(status: Status) {
    status in {Completed, Failed, Cancelled, InputRequired}
  }

  /** A round that starts from a queued row and begins with its claim leaves the row settled: with the
      status its commands deserve, or failed by a sweep. Unswept rounds leave exactly that status. */
  lemma SettledAtForget(s: Round, turns: seq<Turn>)
    requires Begins(s) && s.claimed && s.row.status == Queued && Clean(turns) && BeginsWithClaim(Arrived(turns))
    requires Run(s, turns).ended
    ensures var t, commands := Run(s, turns), Arrived(turns);
      && FirstDeciding(commands) < |commands|
      && Settled(t.row.status)
      && (t.row.status == ExpectedStatus(commands, t.cancelRequested) || (!Unswept(turns) && t.row.status == Failed))
  {
    RoundFits(s, turns);
  }

  // -------------------------------------------------------------------------- refused transitions

  /** The status the handler of a command asks for. */
  function MarkOf(t: Round, cmd: Command): Option<Status> {
    match cmd
    case Claim => Some(Running)
    case RelayEvent(_) => None
    case FinishStream => Some(Target(t))
    case RequestCancel => Some(if t.claimed then Status.Cancelling else Cancelled)
    case Fail(_) => Some(Failed)
  }

  predicate Refuses(t: Round, cmd: Command) {
    MarkOf(t, cmd).Some? && !Legal(t.row.status, MarkOf(t, cmd).value)
  }

  /** The commands this loop has taken when it is about to take the next one. */
  function TakenBefore(t: Round, commands: seq<Command>): seq<Command> {
    var n := TakenSoFar(t, commands);
    if 0 <= n <= |commands| then commands[..n] else []
  }

  /** Which transitions are refused: every one once a sweep has failed the row, a second cancel, a second
      claim, and no other. */
  lemma RefusalsExplained(s: Round, turns: seq<Turn>, turn: Turn)
    requires Begins(s) && s.claimed && s.row.status == Queued && Clean(turns) && turn.fault.None?
    requires BeginsWithClaim(Arrived(turns) + turn.arrivals)
    requires !Run(s, turns).ended && Interfered(Run(s, turns), turn).inQueue != []
    ensures var t := Interfered(Run(s, turns), turn);
      var cmd, taken := t.inQueue[0], TakenBefore(t, Arrived(turns) + turn.arrivals);
      && (Refuses(t, cmd) <==> (MarkOf(t, cmd).Some? && (t.row.status == Failed
                                 || (cmd.RequestCancel? && RequestCancel in taken) || (cmd.Claim? && taken != []))))
      && (t.row.status == Failed ==> !Unswept(turns + [turn]))
  {
    var before, commands := Run(s, turns), Arrived(turns);
    var t, all := Interfered(before, turn), commands + turn.arrivals;
    assert BeginsWithClaim(commands) by {
      assert commands != [] ==> all[0] == commands[0];
    }
    RoundFits(s, turns);
    ArrivalsStand(s, before, commands, turn);
    ArrivalsFit(s, before, commands, turn, !Unswept(turns));
    SweptTurns(turns, turn);
    RefusalExplained(s, t, all, !Unswept(turns + [turn]));
  }

  lemma RefusalExplained(s: Round, t: Round, commands: seq<Command>, swept: bool)
    requires Stands(s, t, commands) && !t.ended && RowFits(s, t, commands, swept) && t.inQueue != []
    requires BeginsWithClaim(commands)
    ensures var cmd, taken := t.inQueue[0], TakenBefore(t, commands);
      && (Refuses(t, cmd) <==> (MarkOf(t, cmd).Some? && (t.row.status == Failed
                                 || (cmd.RequestCancel? && RequestCancel in taken) || (cmd.Claim? && taken != []))))
      && (t.row.status == Failed ==> swept)
  {
    var n: nat :| ReadUpTo(s, t, commands, n) && OnItsWay(t, commands[..n], swept);
    ProgressOnceClaimed(commands, n);
    hide Progress, Relayed, EventsOf, Refuses, FirstDeciding, Target;
    var cmd := t.inQueue[0];
    if Reading(s, t, commands) && n == TakenSoFar(t, commands) {
      assert cmd == commands[n];
      hide Reading, Doomed;
      WhatIsRefused(t, cmd, commands[..n], swept);
    } else {
      assert cmd == Fail(MALFORMED_REASON) && n > 0;
      hide Reading, Doomed;
      WhatIsRefused(t, cmd, commands[..n], swept);
    }
  }

  lemma WhatIsRefused(t: Round, cmd: Command, taken: seq<Command>, swept: bool)
    requires t.claimed && (taken == [] ==> cmd.Claim?)
    requires t.row.status == (if taken == [] then Queued
                              else if RequestCancel in taken then Status.Cancelling else Running)
          || (swept && t.row.status == Failed)
    ensures Refuses(t, cmd) <==> (MarkOf(t, cmd).Some? && (t.row.status == Failed
                                 || (cmd.RequestCancel? && RequestCancel in taken) || (cmd.Claim? && taken != [])))
    ensures t.row.status == Failed ==> swept
  {
  }

  lemma SweptTurns(turns: seq<Turn>, turn: Turn)
    ensures Unswept(turns + [turn]) <==> Unswept(turns) && turn.sweeps == []
  {
    assert forall u :: u in turns + [turn] <==> u in turns || u == turn;
  }
}

/**
 What one round's handlers come to, whichever of their database calls are lost: whom they ask to stop, what keeps the
 run alive, what is numbered, stored and sent, and what ends the round or marks it as cancelled.
 */
module PipelineCalls {
  import opened Basics
  import opened Events
  import opened Statuses
  import opened PipelineSpec
  import opened PipelineRecords
  import opened PipelineRounds
  import opened PipelineSettles
  import opened PipelineStream

  // -------------------------------------------------------------------------- asking the claimant to stop

  /** How many cancels have been handled, their write not raising. */
  function CancelsHandled(s: Round, turns: seq<Turn>): nat {
    if turns == [] then 0
    else
      var before, last := turns[..|turns| - 1], turns[|turns| - 1];
      CancelsHandled(s, before)
      + if Takes(Run(s, before), last) == Some(RequestCancel) && !Raises(last.fault, 0) then 1 else 0
  }

  lemma HandlerAsks(t: Round, cmd: Command, fault: Fault, now: Time)
    ensures var u := Handled(t, cmd, fault, now);
      && u.claimed == t.claimed
      && u.notified == t.notified + if t.claimed && cmd.RequestCancel? && !Raises(fault, 0) then 1 else 0
  {
    hide MarkedRow, Replied, OwesReply, OwesError, Target, Raises;
  }

  /** The claimant of a claimed run is asked to stop once for each cancel handled, and for nothing else; nobody is
      asked for a run that is not claimed. */
  lemma {:induction false} AskedOncePerCancel(s: Round, turns: seq<Turn>)
    ensures Run(s, turns).claimed == s.claimed
    ensures Run(s, turns).notified == s.notified + if s.claimed then CancelsHandled(s, turns) else 0
  {
    hide Handled, Swept;
    if turns != [] {
      var before, last := turns[..|turns| - 1], turns[|turns| - 1];
      AskedOncePerCancel(s, before);
      var ready := Interfered(Run(s, before), last);
      if ready.inQueue != [] {
        HandlerAsks(ready.(inQueue := ready.inQueue[1..]), ready.inQueue[0], last.fault, last.now);
      }
    }
  }

  /** A cancel handled by a one-shot ends an unclaimed run that is neither paused nor over, asking nobody; if the run
      has been claimed since, it asks the claimant, and a running one is then cancelling. */
  lemma OneShotCancels(s: Round, fault: Fault, now: Time)
    ensures var t := OneShot(s, RequestCancel, fault, now);
      && t.notified == s.notified + (if s.claimed && !Raises(fault, 0) then 1 else 0)
      && t.row.status == (if Raises(fault, 0) then s.row.status
                          else if !s.claimed && s.row.status in {Queued, Running, Status.Cancelling} then Cancelled
                          else if s.claimed && s.row.status == Running then Status.Cancelling
                          else s.row.status)
      && t.out == s.out + [EndOfStream] && t.log == s.log
  {
    hide Raises;
  }

  // ---------------------------------------------------------------------------- relaying keeps a run alive

  predicate TimeMovesOn(turns: seq<Turn>) {
    forall i, j :: 0 <= i <= j < |turns| ==> turns[i].now <= turns[j].now
  }

  lemma {:induction false} SweepsAreNoActivity(row: Row, sweeps: seq<Clause>, now: Time)
    ensures Swept(row, sweeps, now).lastActivity == row.lastActivity
  {
    if sweeps != [] {
      SweepsAreNoActivity(row, sweeps[..|sweeps| - 1], now);
    }
  }

  /** A handler either leaves the row's last activity or makes it now, and a relay that stores and commits does. */
  lemma HandlerActivity(t: Round, cmd: Command, fault: Fault, now: Time)
    ensures Handled(t, cmd, fault, now).row.lastActivity in {t.row.lastActivity, now}
    ensures cmd.RelayEvent? && !cmd.event.Invalid? && !Raises(fault, 2) ==>
              Handled(t, cmd, fault, now).row.lastActivity == now
  {
    hide Replied, OwesReply, OwesError, Target, Raises, Legal;
  }

  /** The turn relays an event, and the commit behind it goes through. */
  predicate Relays(t: Round, turn: Turn) {
    Takes(t, turn).Some? && Takes(t, turn).value.RelayEvent? && !Takes(t, turn).value.event.Invalid?
    && !Raises(turn.fault, 2)
  }

  lemma TurnActivity(t: Round, turn: Turn)
    ensures AfterTurn(t, turn).row.lastActivity in {t.row.lastActivity, turn.now}
    ensures Relays(t, turn) ==> AfterTurn(t, turn).row.lastActivity == turn.now
  {
    hide Handled, Swept;
    SweepsAreNoActivity(t.row, turn.sweeps, turn.now);
    var ready := Interfered(t, turn);
    if ready.inQueue != [] {
      HandlerActivity(ready.(inQueue := ready.inQueue[1..]), ready.inQueue[0], turn.fault, turn.now);
    }
  }

  lemma {:induction false} ActiveSinceRelay(s: Round, turns: seq<Turn>, i: nat)
    requires TimeMovesOn(turns) && i < |turns| && Relays(Run(s, turns[..i]), turns[i])
    ensures turns[i].now <= Run(s, turns).row.lastActivity
  {
    hide AfterTurn, Relays;
    var before, last := turns[..|turns| - 1], turns[|turns| - 1];
    TurnActivity(Run(s, before), last);
    if i < |before| {
      assert before[..i] == turns[..i];
      ActiveSinceRelay(s, before, i);
    }
  }

  /** A run that has relayed an event at or after a cutoff is not failed for being silent since it. */
  lemma NotStalledSinceRelay(s: Round, turns: seq<Turn>, i: nat, cutoff: Time, now: Time)
    requires TimeMovesOn(turns) && i < |turns| && Relays(Run(s, turns[..i]), turns[i]) && cutoff <= turns[i].now
    ensures Written(Run(s, turns).row, FailIf("", Stalled(cutoff)), now) == Run(s, turns).row
  {
    hide Run, Relays;
    ActiveSinceRelay(s, turns, i);
  }

  // --------------------------------------------------------------------- what a lost call takes with it

  /** How many database calls a command's handler makes, and which of them, from zero, stores its event. */
  function Calls(cmd: Command): nat {
    if cmd.RelayEvent? || cmd.FinishStream? then 3 else if cmd.Fail? then 2 else 1
  }

  function StoringCall(cmd: Command): nat {
    if cmd.FinishStream? then 1 else 0
  }

  /** The event of a handler, if its first `calls` database calls go through. */
  function After(t: Round, cmd: Command, fault: Fault, calls: nat): seq<Event> {
    if Emitted(t, cmd).Some? && (fault.None? || fault.value >= calls) then [Emitted(t, cmd).value] else []
  }

  lemma HandlerTells(t: Round, cmd: Command, fault: Fault, now: Time)
    ensures var u := Handled(t, cmd, fault, now);
      && Sendings(u.out) == Sendings(t.out) + After(t, cmd, fault, Calls(cmd))
      && EventsOf(u.log) == EventsOf(t.log) + After(t, cmd, fault, StoringCall(cmd) + 1)
      && u.seqNo == t.seqNo + |After(t, cmd, fault, StoringCall(cmd))|
  {
    hide MarkedRow, Replied, OwesReply, Target, EventsOf, Sendings;
    HandlerEmits(t, cmd, fault, now);
    var event := Emitted(t, cmd);
    if event.Some? {
      SendingsGrow(t.out, event.value);
      var u := Handled(t, cmd, fault, now);
      EventsGrow(t.log, Entry(u.seqNo, event.value));
      assert t.out + [] == t.out && t.log + [] == t.log;
    }
  }

  lemma EventsGrow(log: seq<Entry>, entry: Entry)
    ensures EventsOf(log + [entry]) == EventsOf(log) + [entry.event]
  {
  }

  /** The events of the handlers whose first calls went through: up to the storing one, or all of them. */
  function Told(s: Round, turns: seq<Turn>, stored: bool): seq<Event> {
    if turns == [] then []
    else
      var before, last := turns[..|turns| - 1], turns[|turns| - 1];
      var t := Run(s, before);
      Told(s, before, stored)
      + match Takes(t, last)
        case None => []
        case Some(cmd) =>
          After(Interfered(t, last), cmd, last.fault, if stored then StoringCall(cmd) + 1 else Calls(cmd))
  }

  /** Whatever calls are lost, the subscriber is sent exactly the events of the handlers none of whose calls was, and
      the log holds exactly those of the handlers that got as far as storing theirs. */
  lemma {:induction false} SentIffNothingLost(s: Round, turns: seq<Turn>)
    ensures Sendings(Run(s, turns).out) == Sendings(s.out) + Told(s, turns, false)
    ensures EventsOf(Run(s, turns).log) == EventsOf(s.log) + Told(s, turns, true)
  {
    hide Handled, Swept, Sendings, EventsOf, Calls, StoringCall;
    if turns != [] {
      var before, last := turns[..|turns| - 1], turns[|turns| - 1];
      SentIffNothingLost(s, before);
      TurnTells(Run(s, before), last);
    }
  }

  lemma TurnTells(t: Round, turn: Turn)
    ensures var u, taken := AfterTurn(t, turn), Takes(t, turn);
      && Sendings(u.out) == Sendings(t.out)
           + (if taken.None? then []
              else After(Interfered(t, turn), taken.value, turn.fault, Calls(taken.value)))
      && EventsOf(u.log) == EventsOf(t.log)
           + (if taken.None? then []
              else After(Interfered(t, turn), taken.value, turn.fault, StoringCall(taken.value) + 1))
  {
    hide Handled, Swept, Sendings, EventsOf, Calls, StoringCall, Target;
    var ready := Interfered(t, turn);
    if !t.ended && ready.inQueue != [] {
      var rest, cmd := ready.(inQueue := ready.inQueue[1..]), ready.inQueue[0];
      HandlerTells(rest, cmd, turn.fault, turn.now);
      SameTarget(ready, rest);
      EndIsNoSending(Handled(rest, cmd, turn.fault, turn.now).out);
    }
  }

  lemma EndIsNoSending(out: seq<Item>)
    ensures Sendings(out + [EndOfStream]) == Sendings(out)
  {
    assert (out + [EndOfStream])[..|out|] == out;
  }

  /** Each event is numbered just before it is stored, whether it then is or not. */
  lemma {:induction false} NumberedBeforeStored(s: Round, turns: seq<Turn>)
    ensures Run(s, turns).seqNo == s.seqNo + Numbered(s, turns)
  {
    hide Handled, Swept, Sendings, EventsOf, Calls, StoringCall, Target, Emitted;
    if turns != [] {
      var before, last := turns[..|turns| - 1], turns[|turns| - 1];
      NumberedBeforeStored(s, before);
      var ready := Interfered(Run(s, before), last);
      if ready.inQueue != [] {
        var rest, cmd := ready.(inQueue := ready.inQueue[1..]), ready.inQueue[0];
        HandlerTells(rest, cmd, last.fault, last.now);
        SameEvent(ready, rest, cmd);
      }
    }
  }

  function Numbered(s: Round, turns: seq<Turn>): nat {
    if turns == [] then 0
    else
      var before, last := turns[..|turns| - 1], turns[|turns| - 1];
      var t := Run(s, before);
      Numbered(s, before)
      + match Takes(t, last)
        case None => 0
        case Some(cmd) => |After(Interfered(t, last), cmd, last.fault, StoringCall(cmd))|
  }

  lemma SameEvent(t: Round, rest: Round, cmd: Command)
    requires rest == t.(inQueue := rest.inQueue)
    ensures Emitted(rest, cmd) == Emitted(t, cmd)
  {
  }

  // ------------------------------------------------------------------------------------- what ends a round

  /** The `i`th turn takes a finish, a fail, or the cancel of a run nobody has claimed. */
  predicate ClosesAt(s: Round, turns: seq<Turn>, i: nat)
    requires i < |turns|
  {
    match Takes(Run(s, turns[..i]), turns[i])
    case Some(FinishStream) => true
    case Some(Fail(_)) => true
    case Some(RequestCancel) => !s.claimed
    case _ => false
  }

  lemma TurnEnds(t: Round, turn: Turn)
    ensures AfterTurn(t, turn).ended
       <==> t.ended || (var cmd := Takes(t, turn);
                        cmd == Some(FinishStream) || (cmd.Some? && cmd.value.Fail?)
                        || (cmd == Some(RequestCancel) && !t.claimed))
  {
    hide Handled, Swept;
    var ready := Interfered(t, turn);
    if ready.inQueue != [] {
      HandlerEmits(ready.(inQueue := ready.inQueue[1..]), ready.inQueue[0], turn.fault, turn.now);
    }
  }

  /** A round is over if and only if one of its turns took a closing command. */
  lemma {:induction false} EndsIffClosed(s: Round, turns: seq<Turn>)
    requires !s.ended
    ensures Run(s, turns).ended <==> exists i :: 0 <= i < |turns| && ClosesAt(s, turns, i)
  {
    hide Handled, Swept;
    if turns != [] {
      var n := |turns| - 1;
      var before, last := turns[..n], turns[n];
      EndsIffClosed(s, before);
      AskedOncePerCancel(s, before);
      forall i | 0 <= i < n ensures ClosesAt(s, before, i) == ClosesAt(s, turns, i) {
        assert before[..i] == turns[..i];
      }
      TurnEnds(Run(s, before), last);
      assert Run(s, turns).ended <==> Run(s, before).ended || ClosesAt(s, turns, n);
      if Run(s, before).ended {
        var i: nat :| i < n && ClosesAt(s, before, i);
        assert ClosesAt(s, turns, i);
      }
    }
  }

  /** A round counts as asked to cancel if and only if it was before, or a cancel was requested while it lasted. */
  lemma {:induction false} CancelledIffRequested(s: Round, turns: seq<Turn>)
    ensures Run(s, turns).cancelRequested
       <==> s.cancelRequested || exists i :: 0 <= i < |turns| && turns[i].cancelled && !Run(s, turns[..i]).ended
  {
    hide Handled, Swept;
    if turns != [] {
      var n := |turns| - 1;
      var before, last := turns[..n], turns[n];
      CancelledIffRequested(s, before);
      TurnRequests(Run(s, before), last);
      forall i | 0 <= i < n ensures before[i] == turns[i] && before[..i] == turns[..i] {
      }
      if Run(s, before).cancelRequested && !s.cancelRequested {
        var i :| 0 <= i < n && before[i].cancelled && !Run(s, before[..i]).ended;
        assert turns[i].cancelled && !Run(s, turns[..i]).ended;
      }
      hide AfterTurn;
    }
  }

  lemma TurnRequests(t: Round, turn: Turn)
    ensures AfterTurn(t, turn).cancelRequested <==> t.cancelRequested || (turn.cancelled && !t.ended)
  {
    hide Handled, Swept;
    var ready := Interfered(t, turn);
    if ready.inQueue != [] {
      HandlerEmits(ready.(inQueue := ready.inQueue[1..]), ready.inQueue[0], turn.fault, turn.now);
    }
  }
}

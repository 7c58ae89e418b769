/**
 What the events of a round say about its outcome, in the events' own fields: what a paused run asks, the status a
 finished stream gets, and how the status stored last compares with the last word an A2A caller was sent.
 */
module LastWords {
  import opened Basics
  import opened Events
  import opened Statuses
  import opened PipelineSpec
  import opened PipelineMeaning
  import A2A

  // ------------------------------------------------------------------------------------ the pause

  lemma HandlerPauses(t: Round, cmd: Command, now: Time)
    ensures var u, event := Handled(t, cmd, None, now), Emitted(t, cmd);
      u.pause == if event.Some? && Asks(event.value) then Some(Questions(event.value)) else t.pause
  {
    hide Replied, MarkedRow, OwesReply, Target;
  }

  predicate PausesAsAsked(s: Round, t: Round) {
    |s.log| <= |t.log| && t.pause == LastAsked(EventsOf(NewEntries(s, t)))
  }

  lemma HandledPausesAsAsked(s: Round, t: Round, cmd: Command, now: Time)
    requires PausesAsAsked(s, t)
    ensures PausesAsAsked(s, Handled(t, cmd, None, now))
  {
    hide Handled, Emitted, EventsOf, LastAsked, Asks, Questions, AnyFinished, AnyError, AnyAsking;
    var u, event := Handled(t, cmd, None, now), Emitted(t, cmd);
    HandlerEmits(t, cmd, None, now);
    HandlerPauses(t, cmd, now);
    if event.Some? {
      FlagsOneMore(EventsOf(NewEntries(s, t)), event.value);
      EntriesOneMore(s, t, u, event.value);
    }
  }

  lemma TurnPausesAsAsked(s: Round, t: Round, turn: Turn)
    requires PausesAsAsked(s, t) && turn.fault.None?
    ensures PausesAsAsked(s, AfterTurn(t, turn))
  {
    hide Handled, EventsOf, LastAsked, Swept;
    var ready := Interfered(t, turn);
    if !t.ended && ready.inQueue != [] {
      HandledPausesAsAsked(s, ready.(inQueue := ready.inQueue[1..]), ready.inQueue[0], turn.now);
    }
  }

  /** Whatever arrives when, a round's pause is what the last asking event among its stored events asks, and there is
      none exactly while none of them asks. */
  lemma {:induction false} PauseIsLastAsked(s: Round, turns: seq<Turn>)
    requires Begins(s) && Clean(turns)
    ensures var t := Run(s, turns); var events := EventsOf(NewEntries(s, t));
      && |s.log| <= |t.log| && t.pause == LastAsked(events)
      && (t.pause.Some? <==> exists i :: 0 <= i < |events| && Asks(events[i]))
  {
    hide AfterTurn, EventsOf, LastAsked;
    if turns == [] {
      NothingAsked(s);
    } else {
      var before, last := turns[..|turns| - 1], turns[|turns| - 1];
      assert last in turns;
      PauseIsLastAsked(s, before);
      TurnPausesAsAsked(s, Run(s, before), last);
    }
    LastAskedIffAsking(EventsOf(NewEntries(s, Run(s, turns))));
  }

  lemma NothingAsked(s: Round)
    requires Begins(s)
    ensures PausesAsAsked(s, s)
  {
    assert NewEntries(s, s) == [];
  }

  // -------------------------------------------------------------- the status, in the commands' own terms

  /** Command `i` relays a RUN_FINISHED; `asking` tells whether it carries an interrupt. */
  predicate RelaysFinish(commands: seq<Command>, i: nat, asking: bool)
    requires i < |commands|
  {
    && commands[i].RelayEvent? && commands[i].event.RunFinished?
    && commands[i].event.outcome.Interrupt? == asking
  }

  lemma {:induction false} RelayedMembers(commands: seq<Command>, n: nat, e: Event)
    requires n <= |commands|
    ensures e in Relayed(commands[..n]) <==> exists i :: 0 <= i < n && commands[i] == RelayEvent(e)
  {
    if n > 0 {
      RelayedOneMore(commands, n - 1);
      RelayedMembers(commands, n - 1, e);
    }
  }

  lemma FinishesAmong(commands: seq<Command>, n: nat)
    requires n <= |commands|
    ensures AnyAsking(Relayed(commands[..n])) <==> exists i :: 0 <= i < n && RelaysFinish(commands, i, true)
    ensures AnyFinished(Relayed(commands[..n]))
       <==> exists i :: 0 <= i < n && (RelaysFinish(commands, i, true) || RelaysFinish(commands, i, false))
  {
    hide Relayed;
    var relayed := Relayed(commands[..n]);
    forall e | e in relayed && e.RunFinished?
      ensures exists i :: 0 <= i < n && RelaysFinish(commands, i, Asks(e))
    {
      RelayedMembers(commands, n, e);
      var i: nat :| i < n && commands[i] == RelayEvent(e);
      assert RelaysFinish(commands, i, Asks(e));
    }
    forall i | 0 <= i < n && (RelaysFinish(commands, i, true) || RelaysFinish(commands, i, false))
      ensures commands[i].event in relayed
    {
      RelayedMembers(commands, n, commands[i].event);
    }
  }

  /** A round closed by a finish asks for "input-required" if and only if an asking RUN_FINISHED was relayed before
      it, whatever else was; failing that for "completed" if and only if another one was; and failing that for
      "cancelled" if and only if a cancel was requested. Otherwise, and closed in any other way, it has failed. */
  lemma StatusInCommands(commands: seq<Command>, cancelled: bool)
    requires FirstDeciding(commands) < |commands|
    ensures var n, status := FirstDeciding(commands), ExpectedStatus(commands, cancelled);
      var asked := exists i :: 0 <= i < n && RelaysFinish(commands, i, true);
      var done := exists i :: 0 <= i < n && RelaysFinish(commands, i, false);
      && (status == InputRequired <==> commands[n].FinishStream? && asked)
      && (status == Completed <==> commands[n].FinishStream? && done && !asked)
      && (status == Cancelled <==> commands[n].FinishStream? && !done && !asked && cancelled)
      && (status == Failed <==> !commands[n].FinishStream? || (!done && !asked && !cancelled))
  {
    hide FirstDeciding, Relayed, RelaysFinish;
    FinishesAmong(commands, FirstDeciding(commands));
  }

  // ------------------------------------------------------------------------- the A2A caller's last word

  /** A pause is sent with what it asks, an error with its message, and any other RUN_FINISHED as the end. */
  lemma WordsSent(event: Event)
    ensures Asks(event) ==>
      A2A.UpdateFor(event) == A2A.StatusUpdate(A2A.StateFor(InputRequired), None, Some(Questions(event)), None)
    ensures event.RunError? ==>
      A2A.UpdateFor(event) == A2A.StatusUpdate(A2A.StateFor(Failed), Some(event.message), None, None)
    ensures event.RunFinished? && !Asks(event) ==>
      A2A.UpdateFor(event) == A2A.StatusUpdate(A2A.StateFor(Completed), None, None, None)
    ensures event.RunStarted? ==> A2A.UpdateFor(event) == A2A.StatusUpdate(A2A.StateFor(Running), None, None, None)
  {
  }

  predicate Ending(event: Event) {
    event.RunFinished? || event.RunError?
  }

  /** The last RUN_FINISHED or RUN_ERROR. */
  function LastWord(events: seq<Event>): (last: Option<Event>)
    ensures last.Some? ==> Ending(last.value) && last.value in events
    ensures last.None? ==> forall e :: e in events ==> !Ending(e)
  {
    if events == [] then None
    else if Ending(events[|events| - 1]) then Some(events[|events| - 1])
    else LastWord(events[..|events| - 1])
  }

  lemma LastWordOneMore(events: seq<Event>, event: Event)
    requires Ending(event)
    ensures LastWord(events + [event]) == Some(event)
  {
  }

  /** The state last sent with an ending event, if there was one. */
  function LastStateSent(events: seq<Event>): Option<A2A.TaskState> {
    var last := LastWord(events);
    if last.None? then None
    else
      var update := A2A.UpdateFor(last.value);
      if update.StatusUpdate? then Some(update.state) else None
  }

  lemma FailedSoErred(relayed: seq<Event>, decider: Command, cancelled: bool)
    requires decider.FinishStream? && Deserved(relayed, cancelled) == Failed
    ensures var last := LastWord(relayed + PipelineMeaning.Verdict(relayed, decider, cancelled));
      last.Some? && last.value.RunError?
  {
    if AnyError(relayed) {
      assert relayed + PipelineMeaning.Verdict(relayed, decider, cancelled) == relayed;
    } else {
      LastWordOneMore(relayed, RunError(UNFINISHED_MESSAGE));
    }
  }

  /** Of all a round sends, the last word on how it ended names the state its row is to store: always for a failed
      run; for a completed one if and only if no error follows; for a paused one if and only if nothing that is not
      asking follows; and never for a cancelled one. */
  lemma LastWordIsStored(commands: seq<Command>, cancelled: bool)
    requires FirstDeciding(commands) < |commands|
    ensures var status, events := ExpectedStatus(commands, cancelled), Expected(commands, cancelled);
      var last := LastWord(events);
      LastStateSent(events) == Some(A2A.StateFor(status))
      <==> && last.Some?
           && match status
              case InputRequired => Asks(last.value)
              case Completed => !last.value.RunError?
              case Failed => true
              case _ => false
    ensures ExpectedStatus(commands, cancelled) == Failed ==> LastWord(Expected(commands, cancelled)).Some?
  {
    hide FirstDeciding, Relayed;
    var n := FirstDeciding(commands);
    var relayed := Relayed(commands[..n]);
    if commands[n].Fail? {
      LastWordOneMore(relayed, RunError(commands[n].reason));
    } else if Malformed(commands[n]) {
      LastWordOneMore(relayed, RunError(MALFORMED_REASON));
    } else if Deserved(relayed, cancelled) == Failed {
      FailedSoErred(relayed, commands[n], cancelled);
    } else {
      assert relayed + PipelineMeaning.Verdict(relayed, commands[n], cancelled) == relayed;
    }
    var last := LastWord(Expected(commands, cancelled));
    if last.Some? {
      WordsSent(last.value);
    }
  }

  /** No two statuses share a state, a state ends the task exactly if the status ends the run, and only "cancelling"
      has none of A2A's. */
  lemma StatesTellStatusesApart(s: Status, t: Status)
    ensures A2A.StateFor(s) == A2A.StateFor(t) ==> s == t
    ensures s.Terminal() <==> A2A.StateFor(s) in {A2A.Completed, A2A.Failed, A2A.Canceled}
    ensures s == Cancelling <==> A2A.StateFor(s).Unspecified?
  {
  }
}

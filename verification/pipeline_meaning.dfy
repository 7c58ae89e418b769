/**
 What a claimed run's round comes to, as a function of the commands in arrival order and the cancel flag
 alone: how the arrivals fall between the loop's turns, and what was queued when, does not matter.
 */
module PipelineMeaning {
  import opened Basics
  import opened Events
  import opened Statuses
  import opened PipelineSpec
  import Reduce

  /** The commands that close a claimed run's round, at once or through the `Fail` they cause. */
  predicate Deciding(cmd: Command) {
    cmd.FinishStream? || cmd.Fail? || Malformed(cmd)
  }

  function FirstDeciding(commands: seq<Command>): (n: nat)
    ensures n <= |commands|
    ensures forall i :: 0 <= i < n ==> !Deciding(commands[i])
    ensures n < |commands| ==> Deciding(commands[n])
  {
    if commands == [] || Deciding(commands[0]) then 0 else 1 + FirstDeciding(commands[1..])
  }

  function Relayed(commands: seq<Command>): seq<Event> {
    if commands == [] then []
    else
      var last := commands[|commands| - 1];
      Relayed(commands[..|commands| - 1]) + if last.RelayEvent? then [last.event] else []
  }

  predicate AnyFinished(events: seq<Event>) {
    exists e :: e in events && e.RunFinished?
  }

  predicate AnyError(events: seq<Event>) {
    exists e :: e in events && e.RunError?
  }

  predicate AnyAsking(events: seq<Event>) {
    exists e :: e in events && Asks(e)
  }

  /** What the last asking event asks; None if none of them asks. */
  function LastAsked(events: seq<Event>): Option<seq<string>> {
    if events == [] then None
    else if Asks(events[|events| - 1]) then Some(Questions(events[|events| - 1]))
    else LastAsked(events[..|events| - 1])
  }

  lemma {:induction false} LastAskedIffAsking(events: seq<Event>)
    ensures LastAsked(events).Some? <==> AnyAsking(events)
  {
    if events != [] {
      var before, last := events[..|events| - 1], events[|events| - 1];
      assert events == before + [last];
      LastAskedIffAsking(before);
      FlagsOneMore(before, last);
    }
  }

  /** The status a finished stream of these events deserves. */
  function Deserved(events: seq<Event>, cancelled: bool): Status {
    if AnyAsking(events) then InputRequired
    else if AnyFinished(events) then Completed
    else if cancelled then Cancelled
    else Failed
  }

  /** The last event funduq adds itself, if it adds one. */
  function Verdict(events: seq<Event>, decider: Command, cancelled: bool): seq<Event> {
    if decider.Fail? then [RunError(decider.reason)]
    else if Malformed(decider) then [RunError(MALFORMED_REASON)]
    else if Deserved(events, cancelled) == Failed && !AnyError(events) then [RunError(UNFINISHED_MESSAGE)]
    else []
  }

  /** The round's events: those relayed before the first deciding command, then the verdict. */
  function Expected(commands: seq<Command>, cancelled: bool): seq<Event> {
    var n := FirstDeciding(commands);
    var relayed := Relayed(commands[..n]);
    relayed + if n < |commands| then Verdict(relayed, commands[n], cancelled) else []
  }

  function ExpectedStatus(commands: seq<Command>, cancelled: bool): Status
    requires FirstDeciding(commands) < |commands|
  {
    var n := FirstDeciding(commands);
    if commands[n].FinishStream? then Deserved(Relayed(commands[..n]), cancelled) else Failed
  }

  /** Everything that arrived, in order. */
  function Arrived(turns: seq<Turn>): seq<Command> {
    if turns == [] then [] else Arrived(turns[..|turns| - 1]) + turns[|turns| - 1].arrivals
  }

  // ------------------------------------------------------------------- where a round stands

  function TakenSoFar(t: Round, commands: seq<Command>): int {
    |commands| - |t.inQueue|
  }

  /** The loop has taken a prefix of the arrivals, none of them deciding. */
  predicate Reading(s: Round, t: Round, commands: seq<Command>) {
    var n := TakenSoFar(t, commands);
    && 0 <= n <= FirstDeciding(commands) && t.inQueue == commands[n..]
    && EventsOf(NewEntries(s, t)) == Relayed(commands[..n])
    && t.sawFinished == AnyFinished(Relayed(commands[..n]))
    && t.sawError == AnyError(Relayed(commands[..n]))
    && t.pause == LastAsked(Relayed(commands[..n]))
  }

  /** It has met a malformed event: the `Fail` for it is next. */
  predicate Doomed(s: Round, t: Round, commands: seq<Command>) {
    var n := FirstDeciding(commands);
    && n < |commands| && Malformed(commands[n])
    && t.inQueue != [] && t.inQueue[0] == Fail(MALFORMED_REASON)
    && EventsOf(NewEntries(s, t)) == Relayed(commands[..n])
  }

  /** It has left. */
  predicate Over(s: Round, t: Round, commands: seq<Command>) {
    && FirstDeciding(commands) < |commands|
    && EventsOf(NewEntries(s, t)) == Expected(commands, t.cancelRequested)
  }

  predicate Stands(s: Round, t: Round, commands: seq<Command>) {
    && t.claimed && |s.log| <= |t.log|
    && if t.ended then Over(s, t, commands) else Reading(s, t, commands) || Doomed(s, t, commands)
  }

  lemma {:induction false} FirstDecidingGrows(commands: seq<Command>, more: seq<Command>)
    ensures FirstDeciding(commands) < |commands| ==> FirstDeciding(commands + more) == FirstDeciding(commands)
    ensures FirstDeciding(commands) <= FirstDeciding(commands + more)
  {
    if commands != [] {
      FirstDecidingGrows(commands[1..], more);
      assert (commands + more)[1..] == commands[1..] + more;
    }
  }

  lemma OverStays(s: Round, t: Round, commands: seq<Command>, more: seq<Command>)
    requires Over(s, t, commands)
    ensures Over(s, t, commands + more)
  {
    FirstDecidingGrows(commands, more);
    var n := FirstDeciding(commands);
    assert (commands + more)[..n] == commands[..n];
  }

  lemma ReadingStays(s: Round, t: Round, commands: seq<Command>, turn: Turn)
    requires Reading(s, t, commands)
    ensures Reading(s, Interfered(t, turn), commands + turn.arrivals)
  {
    hide Relayed, EventsOf, AnyFinished, AnyError, LastAsked, Swept, FirstDeciding;
    FirstDecidingGrows(commands, turn.arrivals);
    var all, n := commands + turn.arrivals, TakenSoFar(t, commands);
    assert all[..n] == commands[..n];
    assert all[n..] == commands[n..] + turn.arrivals;
  }

  lemma DoomedStays(s: Round, t: Round, commands: seq<Command>, turn: Turn)
    requires Doomed(s, t, commands)
    ensures Doomed(s, Interfered(t, turn), commands + turn.arrivals)
    ensures FirstDeciding(commands + turn.arrivals) == FirstDeciding(commands)
  {
    hide Relayed, EventsOf, Swept;
    FirstDecidingGrows(commands, turn.arrivals);
    var n := FirstDeciding(commands);
    assert (commands + turn.arrivals)[..n] == commands[..n];
  }

  lemma ArrivalsStand(s: Round, t: Round, commands: seq<Command>, turn: Turn)
    requires Stands(s, t, commands) && !t.ended
    ensures Stands(s, Interfered(t, turn), commands + turn.arrivals)
    ensures Reading(s, t, commands) ==> Reading(s, Interfered(t, turn), commands + turn.arrivals)
  {
    hide Reading, Doomed, Over;
    if Reading(s, t, commands) {
      ReadingStays(s, t, commands, turn);
    } else {
      DoomedStays(s, t, commands, turn);
    }
  }

  lemma RelayedOneMore(commands: seq<Command>, n: nat)
    requires n < |commands|
    ensures Relayed(commands[..n + 1])
         == if commands[n].RelayEvent? then Relayed(commands[..n]) + [commands[n].event] else Relayed(commands[..n])
  {
    assert commands[..n + 1][..n] == commands[..n];
  }

  lemma FlagsOneMore(events: seq<Event>, event: Event)
    ensures AnyFinished(events + [event]) == (AnyFinished(events) || event.RunFinished?)
    ensures AnyError(events + [event]) == (AnyError(events) || event.RunError?)
    ensures AnyAsking(events + [event]) == (AnyAsking(events) || Asks(event))
    ensures LastAsked(events + [event]) == if Asks(event) then Some(Questions(event)) else LastAsked(events)
  {
    assert (events + [event])[..|events|] == events;
    assert forall e :: e in events + [event] <==> e in events || e == event;
  }

  lemma EntriesOneMore(s: Round, t: Round, u: Round, event: Event)
    requires |s.log| <= |t.log| && u.log == t.log + [Entry(u.seqNo, event)]
    ensures EventsOf(NewEntries(s, u)) == EventsOf(NewEntries(s, t)) + [event]
  {
  }

  /** What a command that does not decide does to the flags the verdict reads. */
  lemma HandlerNotices(t: Round, cmd: Command, now: Time)
    ensures var u := Handled(t, cmd, None, now);
      if cmd.RelayEvent? && !cmd.event.Invalid? then
        && u.sawFinished == (t.sawFinished || cmd.event.RunFinished?)
        && u.sawError == (t.sawError || cmd.event.RunError?)
        && u.pause == (if Asks(cmd.event) then Some(Questions(cmd.event)) else t.pause)
        && u.log == t.log + [Entry(u.seqNo, cmd.event)]
      else u.sawFinished == t.sawFinished && u.sawError == t.sawError && u.pause == t.pause
  {
    hide Replied, MarkedRow;
  }

  lemma ReadOn(s: Round, t: Round, commands: seq<Command>, turn: Turn)
    requires t.claimed && |s.log| <= |t.log| && !t.ended && Reading(s, t, commands) && t.inQueue != []
    requires !Deciding(t.inQueue[0]) && turn.fault.None?
    ensures Stands(s, Taken(t, turn), commands) && Reading(s, Taken(t, turn), commands)
  {
    hide Handled, Relayed, EventsOf, AnyFinished, AnyError, AnyAsking, LastAsked, Doomed, Asks, Questions;
    var n, cmd := TakenSoFar(t, commands), t.inQueue[0];
    assert cmd == commands[n];
    var rest := t.(inQueue := t.inQueue[1..]);
    var u := Handled(rest, cmd, None, turn.now);
    HandlerEmits(rest, cmd, None, turn.now);
    HandlerNotices(rest, cmd, turn.now);
    RelayedOneMore(commands, n);
    if cmd.RelayEvent? {
      FlagsOneMore(Relayed(commands[..n]), cmd.event);
      EntriesOneMore(s, rest, u, cmd.event);
    }
    assert u.inQueue == commands[n + 1..];
    assert Taken(t, turn) == u;
  }

  lemma MeetMalformed(s: Round, t: Round, commands: seq<Command>, turn: Turn)
    requires t.claimed && |s.log| <= |t.log| && !t.ended && Reading(s, t, commands) && t.inQueue != []
    requires Malformed(t.inQueue[0])
    ensures Doomed(s, Taken(t, turn), commands) && !Taken(t, turn).ended && Stands(s, Taken(t, turn), commands)
  {
    var n := TakenSoFar(t, commands);
    assert t.inQueue[0] == commands[n];
    assert n == FirstDeciding(commands);
  }

  /** The flags the loop kept are those of the events it relayed, so its target is the outcome. */
  lemma TargetIsDeserved(s: Round, t: Round, commands: seq<Command>)
    requires Reading(s, t, commands)
    ensures Target(t) == Deserved(Relayed(commands[..TakenSoFar(t, commands)]), t.cancelRequested)
  {
    LastAskedIffAsking(Relayed(commands[..TakenSoFar(t, commands)]));
  }

  lemma Close(s: Round, t: Round, commands: seq<Command>, turn: Turn)
    requires t.claimed && |s.log| <= |t.log| && !t.ended && t.inQueue != [] && turn.fault.None?
    requires (Reading(s, t, commands) && (t.inQueue[0].FinishStream? || t.inQueue[0].Fail?)) || Doomed(s, t, commands)
    ensures Taken(t, turn).ended && Stands(s, Taken(t, turn), commands)
  {
    hide AnyFinished, AnyError, LastAsked, Deserved;
    var n, cmd := FirstDeciding(commands), t.inQueue[0];
    var relayed := Relayed(commands[..n]);
    if Reading(s, t, commands) {
      assert cmd == commands[TakenSoFar(t, commands)];
      assert TakenSoFar(t, commands) == n;
      assert Reading(s, t, commands) && !Doomed(s, t, commands) ==> EventsOf(NewEntries(s, t)) == relayed;
    }
    if Reading(s, t, commands) {
      TargetIsDeserved(s, t, commands);
    }
    var rest := t.(inQueue := t.inQueue[1..]);
    var u := Handled(rest, cmd, None, turn.now);
    HandlerEmits(rest, cmd, None, turn.now);
    assert NewEntries(s, rest) == NewEntries(s, t);
    if cmd.Fail? {
      EntriesOneMore(s, rest, u, RunError(cmd.reason));
    } else if OwesError(rest) {
      EntriesOneMore(s, rest, u, RunError(UNFINISHED_MESSAGE));
    }
    hide Handled, EventsOf, Relayed;
    assert EventsOf(NewEntries(s, u)) == relayed + Verdict(relayed, commands[n], t.cancelRequested);
    assert NewEntries(s, Ended(u)) == NewEntries(s, u);
  }

  lemma TurnStands(s: Round, t: Round, commands: seq<Command>, turn: Turn)
    requires Stands(s, t, commands) && turn.fault.None?
    ensures Stands(s, AfterTurn(t, turn), commands + turn.arrivals)
  {
    var all := commands + turn.arrivals;
    if t.ended {
      OverStays(s, t, commands, turn.arrivals);
    } else {
      var ready := Interfered(t, turn);
      ArrivalsStand(s, t, commands, turn);
      hide Taken, Reading, Doomed, Over, Interfered, Handled;
      if ready.inQueue != [] {
        if Doomed(s, ready, all) || ready.inQueue[0].FinishStream? || ready.inQueue[0].Fail? {
          Close(s, ready, all, turn);
        } else if Malformed(ready.inQueue[0]) {
          MeetMalformed(s, ready, all, turn);
        } else {
          ReadOn(s, ready, all, turn);
        }
      }
    }
  }

  lemma {:induction false} RoundStands(s: Round, turns: seq<Turn>)
    requires Begins(s) && s.claimed && Clean(turns)
    ensures Stands(s, Run(s, turns), Arrived(turns))
  {
    hide Stands, AfterTurn, Begins;
    if turns == [] {
      StandsAtTheStart(s);
    } else {
      var before, last := turns[..|turns| - 1], turns[|turns| - 1];
      assert last in turns;
      RoundStands(s, before);
      TurnStands(s, Run(s, before), Arrived(before), last);
    }
  }

  lemma StandsAtTheStart(s: Round)
    requires Begins(s) && s.claimed
    ensures Stands(s, s, [])
  {
    assert NewEntries(s, s) == [];
  }

  /** Pipeline refinement. Once the loop has caught up with what arrived, the round's stored events are
      those relayed before the first deciding command and then the verdict, and it has ended exactly if
      there was such a command. Nothing behind it counts, nor does how the arrivals were spread. */
  lemma RoundIsItsArrivals(s: Round, turns: seq<Turn>)
    requires Begins(s) && s.claimed && Clean(turns)
    requires var t := Run(s, turns); t.ended || t.inQueue == []
    ensures var t, commands := Run(s, turns), Arrived(turns);
      && |s.log| <= |t.log|
      && EventsOf(NewEntries(s, t)) == Expected(commands, t.cancelRequested)
      && (t.ended <==> FirstDeciding(commands) < |commands|)
  {
    RoundStands(s, turns);
    var t, commands := Run(s, turns), Arrived(turns);
    hide Run, Arrived, EventsOf, Relayed;
    if !t.ended {
      assert commands[..|commands|] == commands;
      assert FirstDeciding(commands) == |commands|;
    }
  }
}

/** From the agent to the caller: nothing a solely owned run's agent yields is lost, repeated or put out of order. */
module EndToEnd {
  import opened Basics
  import opened Events
  import opened BrokerSpec
  import opened BrokerStranded
  import opened PipelineSpec
  import opened PipelineMeaning
  import opened PipelineStream
  import opened Wires
  import opened Dispatch
  import opened OwnedRuns

  /** The agent's events are valid and no write of the run's handlers is lost; but for its holder's reports only
      cancels reach its queue: nobody else pushes under its id, and no older run of the id has a pipeline left that
      meets a malformed event. */
  ghost predicate Fair(w: Watch, sys: System, act: Act)
    requires IsWatched(w, sys.broker) && Possible(w, sys, act)
  {
    match act
    case Moves(step, _, _, fault) =>
      (Takes(step, w.run) ==> fault.None?) && forall cmd :: cmd in Came(w, sys, act) ==> cmd.RequestCancel?
    case Puts(id, report) => id == w.id && report.Yielded? ==> !report.event.Invalid?
    case Reports(_) => true
  }

  /** What the run's task has put is what has reached its in_queue, then what waits on the shared queue. */
  predicate Conserved(w: Watch, sys: System) {
    && ReportsOf(Reached(sys)) + Mine(sys.output, w.id) == sys.yielded
    && Honest(Reached(sys)) && Clean(sys.turns) && EndsLast(sys.yielded)
    && (forall i :: 0 <= i < |sys.output| && sys.output[i].1.Yielded? && sys.output[i].0 == w.id ==>
          !sys.output[i].1.event.Invalid?)
  }

  /** All that the run's task has put so far still waits on the shared queue, its events valid. */
  predicate AllWait(w: Watch, sys: System) {
    && sys.yielded == Mine(sys.output, w.id) && EndsLast(sys.yielded)
    && (forall i :: 0 <= i < |sys.output| && sys.output[i].1.Yielded? && sys.output[i].0 == w.id ==>
          !sys.output[i].1.event.Invalid?)
  }

  /** It holds when a run has just been claimed, all that its task has put still waiting. */
  lemma ClaimConserves(w: Watch, sys: System)
    requires sys.turns == [] && sys.buffer == [Claim] && AllWait(w, sys)
    ensures Conserved(w, sys)
  {
    assert Reached(sys) == [Claim];
    assert [Claim][..0] == [];
    hide Mine;
    assert [] + Mine(sys.output, w.id) == Mine(sys.output, w.id);
  }

  /** A round that is over has nothing left to report. */
  lemma EndedHasReportedAll(w: Watch, sys: System)
    requires Begins(w.start) && w.start.claimed && Conserved(w, sys) && RoundOf(w, sys).ended
    ensures Mine(sys.output, w.id) == []
    ensures sys.yielded == ReportsOf(Arrived(sys.turns)[..FirstDeciding(Arrived(sys.turns))]) + [EndMark]
    ensures FirstDeciding(Arrived(sys.turns)) < |Arrived(sys.turns)|
  {
    RoundStands(w.start, sys.turns);
    var commands := Arrived(sys.turns);
    hide Run, Stands, Reading, Doomed, Arrived, ReportsOf, Mine;
    assert FirstDeciding(commands) < |commands|;
    FirstDecidingGrows(commands, sys.buffer);
    ClosedByTheMark(Reached(sys), Mine(sys.output, w.id), sys.yielded);
    assert Reached(sys)[..FirstDeciding(commands)] == commands[..FirstDeciding(commands)];
  }

  // ------------------------------------------------------------------------------- act by act

  lemma {:induction false} CancelsReportNothing(commands: seq<Command>)
    requires forall cmd :: cmd in commands ==> cmd.RequestCancel?
    ensures ReportsOf(commands) == []
  {
    if commands != [] {
      assert commands[|commands| - 1] in commands;
      CancelsReportNothing(commands[..|commands| - 1]);
    }
  }

  lemma TurnsAfter(w: Watch, sys: System, act: Act)
    requires WellFormed(sys.broker) && IsWatched(w, sys.broker) && Possible(w, sys, act) && Fair(w, sys, act)
    requires Clean(sys.turns)
    ensures Clean(After(w, sys, act).turns)
  {
    hide Next, Delivered, Came, Pushed;
  }

  lemma MovesConserve(w: Watch, sys: System, act: Act)
    requires Fit(sys.broker) && Tied(w, sys) && Possible(w, sys, act) && act.Moves? && Fair(w, sys, act)
    requires Spares(w, sys, act)
    requires Conserved(w, sys)
    ensures WellFormed(sys.broker) && Conserved(w, After(w, sys, act))
  {
    hide Fit, Tied, Next, Came, Pushed, ReportsOf, Reached, Mine, Enabled;
    TiedIsWatched(w, sys);
    ArrivalsArePushes(w, sys, act);
    TurnsAfter(w, sys, act);
    var came := Came(w, sys, act);
    CancelsReportNothing(came);
    ReportsJoin(Reached(sys), came);
    assert ReportsOf(Reached(sys)) + [] == ReportsOf(Reached(sys));
  }

  lemma PutsConserve(w: Watch, sys: System, act: Act)
    requires Fit(sys.broker) && Tied(w, sys) && Possible(w, sys, act) && act.Puts? && Fair(w, sys, act)
    requires Conserved(w, sys)
    ensures WellFormed(sys.broker) && Conserved(w, After(w, sys, act))
  {
    hide Fit, Tied, ReportsOf, Reached, Mine;
    TiedIsWatched(w, sys);
    ArrivalsArePushes(w, sys, act);
    var next := After(w, sys, act);
    MineOneMore(sys.output, w.id, act.id, act.report);
    assert Reached(next) == Reached(sys) by { assert Reached(sys) + [] == Reached(sys); }
    if act.id == w.id {
      assert forall i :: 0 <= i < |sys.yielded| ==> sys.yielded[i] in sys.yielded;
      assert ReportsOf(Reached(sys)) + (Mine(sys.output, w.id) + [act.report]) == next.yielded;
    } else {
      assert Mine(sys.output, w.id) + [] == Mine(sys.output, w.id);
    }
  }

  lemma ReportsConserve(w: Watch, sys: System, act: Act)
    requires Fit(sys.broker) && Tied(w, sys) && Possible(w, sys, act) && act.Reports?
    requires Conserved(w, sys) && Begins(w.start) && w.start.claimed
    ensures WellFormed(sys.broker) && Conserved(w, After(w, sys, act))
  {
    hide Fit, Tied, ReportsOf, Reached, Mine, Delivered, Pushed, Begins, Run, Honest, EndsLast, Clean;
    TiedIsWatched(w, sys);
    TiedEnds(w, sys);
    ArrivalsArePushes(w, sys, act);
    var next := After(w, sys, act);
    var (id, report) := sys.output[0];
    MineFirst(sys.output, w.id);
    if RoundOf(w, sys).ended {
      EndedHasReportedAll(w, sys);
    }
    ReportConserves(w, sys, next, id, report, Came(w, sys, act));
  }

  /** What left the shared queue is what came. */
  lemma ReportConserves(w: Watch, sys: System, next: System, id: RunId, report: Report, came: seq<Command>)
    requires Conserved(w, sys) && next.turns == sys.turns && next.yielded == sys.yielded
    requires sys.output == [(id, report)] + next.output && Reached(next) == Reached(sys) + came
    requires came == if id == w.id then [CommandFor(report)] else []
    ensures Conserved(w, next)
  {
    hide ReportsOf, Reached, Mine;
    MineFirst(sys.output, w.id);
    assert sys.output[1..] == next.output && sys.output[0] == (id, report);
    assert forall i :: 0 <= i < |next.output| ==> next.output[i] == sys.output[i + 1];
    if id == w.id {
      ReportsOneMore(Reached(sys), CommandFor(report));
      assert ReportsOf(Reached(sys)) + ([report] + Mine(next.output, w.id)) == sys.yielded;
    } else {
      assert Reached(sys) + [] == Reached(sys);
    }
  }

  lemma ActConserves(w: Watch, sys: System, act: Act)
    requires Fit(sys.broker) && Tied(w, sys) && IsWatched(w, sys.broker) && Possible(w, sys, act) && Fair(w, sys, act)
    requires Spares(w, sys, act)
    requires Conserved(w, sys) && Begins(w.start) && w.start.claimed
    ensures WellFormed(sys.broker) && Conserved(w, After(w, sys, act))
  {
    hide Fit, Tied, Conserved, Begins;
    match act
    case Moves(_, _, _, _) => MovesConserve(w, sys, act);
    case Puts(_, _) => PutsConserve(w, sys, act);
    case Reports(_) => ReportsConserve(w, sys, act);
  }

  ghost predicate AllFair(w: Watch, systems: seq<System>, acts: seq<Act>) {
    && |systems| == |acts| + 1
    && (forall i :: 0 <= i < |acts| ==>
          && IsWatched(w, systems[i].broker) && Possible(w, systems[i], acts[i])
          && Fair(w, systems[i], acts[i]))
  }

  /** Nothing is lost between the agent and the run's pipeline, whatever the rest of the system does. */
  lemma {:induction false} AlwaysConserved(w: Watch, systems: seq<System>, acts: seq<Act>, n: nat)
    requires Follows(w, systems, acts) && AllSpare(w, systems, acts)
    requires AllFair(w, systems, acts) && n <= |acts|
    requires Conserved(w, systems[0]) && Begins(w.start) && w.start.claimed
    ensures Conserved(w, systems[n])
  {
    hide Fit, Tied, Conserved, Begins, After, Possible, Fair, IsWatched, Spares;
    if n > 0 {
      AlwaysConserved(w, systems, acts, n - 1);
      AlwaysTied(w, systems, acts, n - 1);
      assert Acts(w, systems[n - 1], acts[n - 1], systems[n - 1 + 1]);
      ActConserves(w, systems[n - 1], acts[n - 1]);
    }
  }

  // ------------------------------------------------------------------------------- what it means

  lemma OverMeansAllYielded(w: Watch, sys: System)
    requires Begins(w.start) && w.start.claimed && Conserved(w, sys) && RoundOf(w, sys).ended
    ensures var t := RoundOf(w, sys);
      EventsOf(NewEntries(w.start, t)) == EventsIn(sys.yielded) + Owed(EventsIn(sys.yielded), t.cancelRequested)
  {
    hide Run, Arrived, ReportsOf, EventsIn, Relayed, EventsOf, Mine, Begins, FirstDeciding, Reading, Doomed;
    RoundStands(w.start, sys.turns);
    EndedHasReportedAll(w, sys);
    var commands := Arrived(sys.turns);
    var n := FirstDeciding(commands);
    assert commands[n].FinishStream? by { assert commands[n] in Reached(sys); }
    RelayedAreReported(commands, n);
    EventsInJoin(ReportsOf(commands[..n]), [EndMark]);
    NoEventInTheMark();
    assert EventsIn(sys.yielded) == Relayed(commands[..n]);
  }

  lemma NotOverMeansPrefix(w: Watch, sys: System)
    requires Begins(w.start) && w.start.claimed && Conserved(w, sys) && !RoundOf(w, sys).ended
    ensures EventsOf(NewEntries(w.start, RoundOf(w, sys))) <= EventsIn(sys.yielded)
  {
    hide Run, Arrived, ReportsOf, EventsIn, Relayed, EventsOf, Mine, Begins, FirstDeciding;
    RoundStands(w.start, sys.turns);
    var t, commands := RoundOf(w, sys), Arrived(sys.turns);
    assert Honest(commands) by { assert forall c :: c in commands ==> c in Reached(sys); }
    HonestIsNotDoomed(w.start, t, commands);
    hide Doomed;
    var n := TakenSoFar(t, commands);
    RelayedAreReported(commands, n);
    assert commands == commands[..n] + commands[n..];
    ReportsJoin(commands[..n], commands[n..]);
    ReportsJoin(commands, sys.buffer);
    var rest := ReportsOf(commands[n..]) + ReportsOf(sys.buffer) + Mine(sys.output, w.id);
    assert sys.yielded == ReportsOf(commands[..n]) + rest;
    EventsInJoin(ReportsOf(commands[..n]), rest);
  }

  /** Over every execution of the whole system, whatever its other runs, callers and providers do and whenever the run
      is cancelled or swept: what the caller of a solely owned run has been sent are the agent's events in order, as
      far as they have come, with at most one error of funduq's own after the last; and when the broker lets go of the
      run it has been sent them all, and then END. */
  lemma CallerGetsWhatTheAgentYielded(w: Watch, systems: seq<System>, acts: seq<Act>)
    requires Follows(w, systems, acts) && AllSpare(w, systems, acts)
    requires AllFair(w, systems, acts)
    requires Conserved(w, systems[0]) && Begins(w.start) && w.start.claimed
    ensures IsWatched(w, systems[|acts|].broker)
    ensures var sys := systems[|acts|];
      var events := EventsIn(sys.yielded);
      var owed := Owed(events, RoundOf(w, sys).cancelRequested);
      if LetGo(w, sys) then EndMark in sys.yielded && Sent(w, sys) == AsItems(events + owed) + [EndOfStream]
      else exists sent :: sent <= events + owed && Sent(w, sys) == AsItems(sent)
  {
    var sys := systems[|acts|];
    AlwaysConserved(w, systems, acts, |acts|);
    AlwaysTied(w, systems, acts, |acts|);
    TiedEnds(w, sys);
    OwnedRunStreamsItsRound(w, systems, acts);
    hide Run, Tied, Fit, Follows, AllFair, Begins, EventsIn, EventsOf, AsItems, Conserved, Owed;
    var stored := EventsOf(NewEntries(w.start, RoundOf(w, sys)));
    if RoundOf(w, sys).ended {
      EndedHasReportedAll(w, sys);
      OverMeansAllYielded(w, sys);
    } else {
      NotOverMeansPrefix(w, sys);
    }
    assert LetGo(w, sys) || Sent(w, sys) == AsItems(stored) + [];
  }

  /** From the broker's start: if the run's claim is the first command in its queue and all that its task has put still
      waits, then that is what its caller gets. */
  lemma CallerGetsItFromTheStart(w: Watch, states: seq<State>, moments: seq<Moment>, systems: seq<System>,
                                 acts: seq<Act>)
    requires GoesOn(w, states, moments, systems, acts)
    requires AllSpare(w, systems, acts) && AllFair(w, systems, acts)
    requires systems[0].buffer == [Claim] && AllWait(w, systems[0])
    ensures IsWatched(w, systems[|acts|].broker)
    ensures var sys := systems[|acts|];
      var events := EventsIn(sys.yielded);
      var owed := Owed(events, RoundOf(w, sys).cancelRequested);
      if LetGo(w, sys) then EndMark in sys.yielded && Sent(w, sys) == AsItems(events + owed) + [EndOfStream]
      else exists sent :: sent <= events + owed && Sent(w, sys) == AsItems(sent)
  {
    EveryClaimIsFollowed(w, states, moments, systems, acts);
    ClaimConserves(w, systems[0]);
    CallerGetsWhatTheAgentYielded(w, systems, acts);
  }
}

/**
 The whole way of a run that exactly one pipeline acts for: the broker with all its other runs, the output queue of
 the provider that holds the run, and the round the run's handlers keep, moving together.
 */
module Dispatch {
  import opened Basics
  import opened Events
  import Statuses
  import opened BrokerSpec
  import opened BrokerClaims
  import opened BrokerOvertaken
  import opened BrokerStranded
  import opened BrokerOwnership
  import opened PipelineSpec
  import opened PipelineStream
  import opened Wires
  import Gates

  /** The run that is followed: its object and id, who holds it, and its round as it was made. */
  datatype Watch = Watch(c: Config, id: RunId, run: nat, holder: Key, start: Round)

  /** `turns` is what the run's pipeline has been through, `buffer` what has reached the run's in_queue since that
      pipeline last took a command, `yielded` all that the run's own task has put on `output`. */
  datatype System = System(
    broker: State,
    turns: seq<Turn>,
    buffer: seq<Command>,
    output: seq<(RunId, Report)>,
    yielded: seq<Report>)

  /** Any step of the broker, with the sweeps before it and the fault in it if the run's own pipeline takes a command
      by it; a task of the provider puts a report; its loop delivers one. */
  datatype Act =
    | Moves(step: Step, at: Time, sweeps: seq<Statuses.Clause>, fault: Fault)
    | Puts(id: RunId, report: Report)
    | Reports(at: Time)

  /** Ids are enqueued as the protocol demands, and the run's task puts nothing after its end marker. */
  ghost predicate Possible(w: Watch, sys: System, act: Act) {
    match act
    case Moves(step, _, _, _) => Enabled(sys.broker, step) && UncontestedStep(sys.broker, step)
    case Puts(id, _) => id == w.id ==> EndMark !in sys.yielded
    case Reports(_) => sys.output != []
  }

  predicate Takes(step: Step, run: nat) {
    step.Take? && step.run == run
  }

  /** What the broker has put on the run's in_queue. */
  function Pushed(s: State, t: State, run: nat): seq<Command> {
    if run < |s.made| && run < |t.made| && |s.made[run].inQueue| <= |t.made[run].inQueue|
    then t.made[run].inQueue[|s.made[run].inQueue|..]
    else []
  }

  /** The handler of a command works at the step that takes it; its pipeline moves on when it completes. */
  ghost function After(w: Watch, sys: System, act: Act): System
    requires WellFormed(sys.broker) && Possible(w, sys, act)
  {
    match act
    case Moves(step, at, sweeps, fault) =>
      var t := Next(w.c, sys.broker, step, at);
      if Takes(step, w.run) then
        var turn := Turn(sys.buffer, sys.broker.made[w.run].cancelRequested, sweeps, fault, at);
        sys.(broker := t, turns := sys.turns + [turn], buffer := [])
      else sys.(broker := t, buffer := sys.buffer + Pushed(sys.broker, t, w.run))
    case Puts(id, report) =>
      sys.(output := sys.output + [(id, report)], yielded := sys.yielded + if id == w.id then [report] else [])
    case Reports(at) =>
      var (id, report) := sys.output[0];
      var t := Delivered(w.c, sys.broker, id, report, w.holder, at);
      sys.(broker := t, output := sys.output[1..], buffer := sys.buffer + Pushed(sys.broker, t, w.run))
  }

  /** The run's pipeline is in the handler of a command that ends the run. */
  predicate Leaving(r: RunRecord) {
    r.pipelines != [] && r.pipelines[0].Handling? && Closing(r, r.pipelines[0].cmd)
  }

  /** The run object is where its round is: what is queued on it is what the round has read but not taken, then what
      it has not read; and the round is over once a closing command is taken. */
  predicate InStep(r: RunRecord, t: Round, buffer: seq<Command>) {
    && (t.ended <==> Leaving(r))
    && (!t.ended ==> r.inQueue == t.inQueue + buffer)
    && (t.cancelRequested ==> r.cancelRequested)
  }

  predicate IsWatched(w: Watch, s: State) {
    w.run < |s.made| && s.made[w.run].id == w.id && s.made[w.run].claimedBy == Some(w.holder)
  }

  function RoundOf(w: Watch, sys: System): Round {
    Run(w.start, sys.turns)
  }

  /** The run is solely owned by its holder and in step with its round, or it and its round are over. */
  predicate Tied(w: Watch, sys: System) {
    var t := RoundOf(w, sys);
    && IsWatched(w, sys.broker) && t.claimed
    && if sys.broker.made[w.run].ended then Retired(sys.broker, w.run) && t.ended
       else SolelyOwned(sys.broker, w.run) && InStep(sys.broker.made[w.run], t, sys.buffer)
  }

  ghost predicate Acts(w: Watch, sys: System, act: Act, next: System) {
    WellFormed(sys.broker) && Possible(w, sys, act) && next == After(w, sys, act)
  }

  /** The acts happen one after the other. */
  ghost predicate Unfolds(w: Watch, systems: seq<System>, acts: seq<Act>) {
    |systems| == |acts| + 1 && forall i :: 0 <= i < |acts| ==> Acts(w, systems[i], acts[i], systems[i + 1])
  }

  /** From a state the protocol can be in, in which the run is solely owned. */
  ghost predicate Follows(w: Watch, systems: seq<System>, acts: seq<Act>) {
    Unfolds(w, systems, acts) && Fit(systems[0].broker) && Tied(w, systems[0])
  }

  /** The act accepts or refuses no offer of the run, which a late ack may have left outstanding. */
  predicate Spares(w: Watch, sys: System, act: Act) {
    act.Moves? ==> !Overtaken(sys.broker, w.run, act.step)
  }

  predicate AllSpare(w: Watch, systems: seq<System>, acts: seq<Act>) {
    |systems| == |acts| + 1 && forall i :: 0 <= i < |acts| ==> Spares(w, systems[i], acts[i])
  }

  // ------------------------------------------------------------------------------- how it starts

  lemma WaitingIsTied(w: Watch, sys: System)
    requires SolelyOwned(sys.broker, w.run) && IsWatched(w, sys.broker)
    requires sys.broker.made[w.run].pipelines == [Waiting]
    requires Begins(w.start) && w.start.claimed && sys.turns == [] && sys.buffer == sys.broker.made[w.run].inQueue
    ensures Tied(w, sys)
  {
    RunNothing(w.start);
    hide InNoQueue;
    assert [] + sys.buffer == sys.buffer;
  }

  /** Every claim of a run that was tracked, unclaimed and without a one-shot ties the run to its round as it was made,
      late acks during an offer of it included. */
  lemma ClaimTies(c: Config, s: State, step: Step, now: Time, w: Watch, sys: System)
    requires Tidy(s) && Enabled(s, step) && Claims(s, step, w.run)
    requires Claimable(s, w.run)
    requires w == Watch(c, s.made[w.run].id, w.run, Claimant(s, step), w.start) && Begins(w.start) && w.start.claimed
    requires sys.broker == BrokerSpec.Next(c, s, step, now) && sys.turns == []
    requires sys.buffer == s.made[w.run].inQueue + [Claim]
    ensures Fit(sys.broker) && Tied(w, sys)
  {
    hide Tidy, Fit, SolelyOwned, Next, Claimable, Claims, Claimant, Begins, Tied;
    ClaimStarts(c, s, step, now, w.run);
    TidyIsFit(s);
    ClaimsEnqueueNothing(s, step, w.run);
    FitNext(c, s, step, now);
    OwnedHasNotEnded(sys.broker, w.run);
    WaitingIsTied(w, sys);
  }

  /** The broker has come from its start to a claim of the run, and the system goes on from there. */
  ghost predicate GoesOn(w: Watch, states: seq<State>, moments: seq<Moment>, systems: seq<System>, acts: seq<Act>) {
    && TidyExecution(w.c, states, moments) && moments != []
    && Begins(w.start) && w.start.claimed
    && (var s, step := states[|moments| - 1], moments[|moments| - 1].step;
        && Claims(s, step, w.run) && Claimable(s, w.run)
        && s.made[w.run].id == w.id && Claimant(s, step) == w.holder
        && Unfolds(w, systems, acts)
        && systems[0].broker == states[|moments|] && systems[0].turns == []
        && systems[0].buffer == s.made[w.run].inQueue + [Claim])
  }

  /** Every execution from the broker's start through such a claim and on through the whole system is followed. */
  lemma EveryClaimIsFollowed(w: Watch, states: seq<State>, moments: seq<Moment>, systems: seq<System>, acts: seq<Act>)
    requires GoesOn(w, states, moments, systems, acts)
    ensures Follows(w, systems, acts)
  {
    var n := |moments| - 1;
    AlwaysTidy(w.c, states, moments, n);
    assert BrokerSpec.Happens(w.c, states[n], moments[n], states[n + 1]);
    hide Tidy, Fit, Next, Enabled, Claims, Claimable, Claimant, Begins, Tied;
    ClaimTies(w.c, states[n], moments[n].step, moments[n].at, w, systems[0]);
  }

  lemma TidyIsFit(s: State)
    requires Tidy(s)
    ensures Fit(s)
  {
  }

  lemma ClaimsEnqueueNothing(s: State, step: Step, run: nat)
    requires WellFormed(s) && Claims(s, step, run)
    ensures UncontestedStep(s, step)
  {
  }

  // ------------------------------------------------------------------------------- what it keeps

  /** A turn that finds a command takes it. */
  lemma TurnTakes(t: Round, turn: Turn)
    requires t.claimed && !t.ended && t.inQueue + turn.arrivals != []
    ensures var u, queue := AfterTurn(t, turn), t.inQueue + turn.arrivals;
      && u.claimed && u.cancelRequested == (t.cancelRequested || turn.cancelled) && u.ended == Closes(queue[0], true)
      && (!u.ended ==> u.inQueue == if Malformed(queue[0]) then [Fail(MALFORMED_REASON)] else queue[1..])
  {
    hide Handled, Swept;
    var ready := Interfered(t, turn);
    HandlerEmits(ready.(inQueue := ready.inQueue[1..]), ready.inQueue[0], turn.fault, turn.now);
  }

  lemma OwnTakeStays(w: Watch, sys: System, act: Act)
    requires Fit(sys.broker) && Tied(w, sys) && Possible(w, sys, act) && act.Moves? && Takes(act.step, w.run)
    ensures WellFormed(sys.broker) && Tied(w, After(w, sys, act))
  {
    hide Fit, TakeCommand, SolelyOwned, Run, AfterTurn, Retired, CanTake;
    FitIsWellFormed(sys.broker);
    var s, t, r := sys.broker, RoundOf(w, sys), sys.broker.made[w.run];
    TakesNow(s, w.run, act.step.task);
    OwnTake(w.c, s, w.run, act.step.task, act.at);
    NextTakes(w.c, s, w.run, act.step.task, act.at);
    var turn := Turn(sys.buffer, r.cancelRequested, act.sweeps, act.fault, act.at);
    TurnTakes(t, turn);
    RunOneMore(w.start, sys.turns, turn);
    OwnedHasNotEnded(After(w, sys, act).broker, w.run);
  }

  lemma OwnedHasNotEnded(s: State, run: nat)
    requires SolelyOwned(s, run)
    ensures run < |s.made| && !s.made[run].ended
  {
  }

  /** A command is taken only by a waiting pipeline, so never from a run that has ended. */
  lemma TakesNow(s: State, run: nat, task: nat)
    requires CanTake(s, run, task)
    ensures run < |s.made| && s.made[run].inQueue != [] && (s.made[run].ended ==> !Retired(s, run))
    ensures SolelyOwned(s, run) ==> s.made[run].pipelines == [Waiting] && !Leaving(s.made[run])
  {
  }

  lemma PushedNothing(s: State, t: State, run: nat)
    requires run < |s.made| && run < |t.made| && t.made[run].inQueue == s.made[run].inQueue
    ensures Pushed(s, t, run) == []
  {
  }

  lemma OwnCompleteStays(w: Watch, sys: System, act: Act)
    requires Fit(sys.broker) && Tied(w, sys) && Possible(w, sys, act)
    requires act.Moves? && act.step.Complete? && act.step.run == w.run
    ensures WellFormed(sys.broker) && Tied(w, After(w, sys, act))
  {
    hide Fit, CompleteCommand, SolelyOwned, Run, Retired, CanComplete, Closing, Pushed;
    FitIsWellFormed(sys.broker);
    var s := sys.broker;
    CompletesNow(s, w.run, act.step.task);
    OwnComplete(s, w.run, act.step.task);
    NextTakes(w.c, s, w.run, act.step.task, act.at);
    var u := After(w, sys, act).broker;
    PushedNothing(s, u, w.run);
    assert sys.buffer + [] == sys.buffer;
  }

  lemma CompletesNow(s: State, run: nat, task: nat)
    requires CanComplete(s, run, task)
    ensures run < |s.made| && (s.made[run].ended ==> !Retired(s, run))
    ensures SolelyOwned(s, run) ==>
              |s.made[run].pipelines| == 1 && s.made[run].pipelines[0].Handling? && !s.made[run].ended
  {
  }

  /** The run's own pipeline stays where it is: at most, commands arrive. */
  lemma KeptStaysTied(w: Watch, sys: System, next: System)
    requires Tied(w, sys) && !sys.broker.made[w.run].ended && Kept(sys.broker, next.broker, w.run)
    requires next.turns == sys.turns && next.buffer == sys.buffer + Pushed(sys.broker, next.broker, w.run)
    ensures Tied(w, next)
  {
    hide Run, InNoQueue;
    KeptIsOwned(sys.broker, next.broker, w.run);
    var before, after := sys.broker.made[w.run].inQueue, next.broker.made[w.run].inQueue;
    assert after == before + after[|before|..];
  }

  lemma RetiredStaysTied(w: Watch, sys: System, next: System)
    requires Tied(w, sys) && sys.broker.made[w.run].ended && next.turns == sys.turns
    requires Retired(next.broker, w.run) && next.broker.made[w.run] == sys.broker.made[w.run]
    ensures Tied(w, next)
  {
    hide Run, Retired;
    RetiredIsMade(next.broker, w.run);
  }

  lemma RetiredIsMade(s: State, run: nat)
    requires Retired(s, run)
    ensures run < |s.made|
  {
  }

  lemma MovesStay(w: Watch, sys: System, act: Act)
    requires Fit(sys.broker) && Tied(w, sys) && Possible(w, sys, act) && act.Moves? && Spares(w, sys, act)
    ensures WellFormed(sys.broker) && Tied(w, After(w, sys, act)) && Fit(After(w, sys, act).broker)
  {
    hide Fit, SolelyOwned, Run, Retired, CanTake, CanComplete, Next, InStep, Kept, Pushed;
    FitIsWellFormed(sys.broker);
    var s, step := sys.broker, act.step;
    FitNext(w.c, s, step, act.at);
    if s.made[w.run].ended {
      RetiredStays(w.c, s, w.run, step, act.at);
      RetiredTakesNothing(s, w.run, step);
      RetiredStaysTied(w, sys, After(w, sys, act));
    } else if Takes(step, w.run) {
      OwnTakeStays(w, sys, act);
    } else if step.Complete? && step.run == w.run {
      OwnCompleteStays(w, sys, act);
    } else {
      OthersKeep(w.c, s, w.run, step, act.at);
      KeptStaysTied(w, sys, After(w, sys, act));
    }
  }

  lemma RetiredTakesNothing(s: State, run: nat, step: Step)
    requires Retired(s, run) && Enabled(s, step)
    ensures !Takes(step, run)
  {
  }

  // ------------------------------------------------------------------------------------- reports

  /** A report of the holder reaches the owned run, a report for any other run leaves it alone. */
  lemma DeliveredKeeps(c: Config, s: State, h: nat, id: RunId, report: Report, holder: Key, at: Time)
    requires Fit(s) && SolelyOwned(s, h) && s.made[h].claimedBy == Some(holder)
    ensures WellFormed(s)
    ensures var t := Delivered(c, s, id, report, holder, at);
      && Fit(t) && Kept(s, t, h) && t.made[h].cancelRequested == s.made[h].cancelRequested
      && t.made[h].inQueue == s.made[h].inQueue + if id == s.made[h].id then [CommandFor(report)] else []
  {
    hide Fit, SolelyOwned, Kept, Gates.Reported, Gates.Finished;
    FitIsWellFormed(s);
    match report
    case Yielded(event) => ReportKeeps(c, s, h, id, event, holder, at);
    case EndMark => FinishKeeps(c, s, h, id, holder, at);
  }

  lemma FinishKeeps(c: Config, s: State, h: nat, id: RunId, holder: Key, at: Time)
    requires Fit(s) && SolelyOwned(s, h) && s.made[h].claimedBy == Some(holder)
    ensures WellFormed(s)
    ensures var t := Gates.Finished(c, s, id, holder, at);
      && Fit(t) && Kept(s, t, h) && t.made[h].cancelRequested == s.made[h].cancelRequested
      && t.made[h].inQueue == s.made[h].inQueue + if id == s.made[h].id then [FinishStream] else []
  {
    hide Fit, PushTo, Gates.Finished, Kept;
    FitIsWellFormed(s);
    Gates.ReportIsTwoSteps(c, s, id, RunStarted, holder, at);
    FitNext(c, s, Push(id, FinishStream), at);
    PushKeeps(c, s, h, id, FinishStream, at);
    OwnedKeepsItself(s, h);
  }

  lemma OwnedKeepsItself(s: State, h: nat)
    requires SolelyOwned(s, h)
    ensures Kept(s, s, h)
  {
  }

  lemma ReportKeeps(c: Config, s: State, h: nat, id: RunId, event: Event, holder: Key, at: Time)
    requires Fit(s) && SolelyOwned(s, h) && s.made[h].claimedBy == Some(holder)
    ensures WellFormed(s)
    ensures var t := Gates.Reported(c, s, id, event, holder, at);
      && Fit(t) && Kept(s, t, h) && t.made[h].cancelRequested == s.made[h].cancelRequested
      && t.made[h].inQueue == s.made[h].inQueue + if id == s.made[h].id then [RelayEvent(event)] else []
  {
    hide Fit, PushTo, AcceptLateAck, Gates.Reported, InNoQueue;
    FitIsWellFormed(s);
    Gates.ReportIsTwoSteps(c, s, id, event, holder, at);
    FitNext(c, s, LateAck(id, holder), at);
    LateAckKeeps(c, s, h, id, holder, at);
    var acked := AcceptLateAck(c, s, id, holder, at);
    KeptIsOwned(s, acked, h);
    FitNext(c, acked, Push(id, RelayEvent(event)), at);
    PushKeeps(c, acked, h, id, RelayEvent(event), at);
  }

  lemma DeliveredLeavesAlone(c: Config, s: State, h: nat, id: RunId, report: Report, holder: Key, at: Time)
    requires Fit(s) && Retired(s, h)
    ensures WellFormed(s)
    ensures var t := Delivered(c, s, id, report, holder, at);
      Fit(t) && Retired(t, h) && t.made[h] == s.made[h]
  {
    hide Fit, PushTo, AcceptLateAck, Gates.Reported, Gates.Finished, Retired;
    FitIsWellFormed(s);
    RetiredIsMade(s, h);
    var event := if report.Yielded? then report.event else RunStarted;
    Gates.ReportIsTwoSteps(c, s, id, event, holder, at);
    var ack, push := LateAck(id, holder), Push(id, CommandFor(report));
    if report.Yielded? {
      FitNext(c, s, ack, at);
      RetiredStays(c, s, h, ack, at);
      var acked := BrokerSpec.Next(c, s, ack, at);
      FitNext(c, acked, push, at);
      RetiredStays(c, acked, h, push, at);
    } else {
      FitNext(c, s, push, at);
      RetiredStays(c, s, h, push, at);
    }
  }

  lemma ReportsStay(w: Watch, sys: System, act: Act)
    requires Fit(sys.broker) && Tied(w, sys) && Possible(w, sys, act) && act.Reports?
    ensures WellFormed(sys.broker) && Tied(w, After(w, sys, act)) && Fit(After(w, sys, act).broker)
  {
    hide Fit, SolelyOwned, Run, Retired, InStep, Kept, Pushed, Delivered;
    FitIsWellFormed(sys.broker);
    var (id, report) := sys.output[0];
    var s := sys.broker;
    if s.made[w.run].ended {
      DeliveredLeavesAlone(w.c, s, w.run, id, report, w.holder, act.at);
      RetiredStaysTied(w, sys, After(w, sys, act));
    } else {
      DeliveredKeeps(w.c, s, w.run, id, report, w.holder, act.at);
      KeptStaysTied(w, sys, After(w, sys, act));
    }
  }

  lemma StaysTied(w: Watch, sys: System, act: Act)
    requires Fit(sys.broker) && Tied(w, sys) && Possible(w, sys, act) && Spares(w, sys, act)
    ensures WellFormed(sys.broker) && Tied(w, After(w, sys, act)) && Fit(After(w, sys, act).broker)
  {
    hide Fit, SolelyOwned, Run, Retired, InStep, Pushed, Delivered, Next;
    match act
    case Moves(_, _, _, _) => MovesStay(w, sys, act);
    case Puts(_, _) => FitIsWellFormed(sys.broker);
    case Reports(_) => ReportsStay(w, sys, act);
  }

  /** Whatever the rest of the system does, a solely owned run and its round stay in step until both are over, as long
      as no offer of the run is accepted or refused. */
  lemma {:induction false} AlwaysTied(w: Watch, systems: seq<System>, acts: seq<Act>, n: nat)
    requires Follows(w, systems, acts) && AllSpare(w, systems, acts) && n <= |acts|
    ensures Fit(systems[n].broker) && Tied(w, systems[n])
  {
    hide Fit, Tied, Possible, After, Spares;
    if n > 0 {
      AlwaysTied(w, systems, acts, n - 1);
      assert Acts(w, systems[n - 1], acts[n - 1], systems[n - 1 + 1]);
      StaysTied(w, systems[n - 1], acts[n - 1]);
    }
  }

  // ---------------------------------------------------------------------------- and when it does not

  lemma CrowdedAfter(w: Watch, sys: System, act: Act)
    requires WellFormed(sys.broker) && Crowded(sys.broker, w.run) && Possible(w, sys, act)
    ensures Crowded(After(w, sys, act).broker, w.run)
  {
    hide Next, Crowded, Pushed, Delivered;
    match act
    case Moves(step, at, _, _) => CrowdedStays(w.c, sys.broker, w.run, step, at);
    case Puts(_, _) =>
    case Reports(at) => CrowdedDelivered(w.c, sys.broker, w.run, sys.output[0].0, sys.output[0].1, w.holder, at);
  }

  lemma CrowdedDelivered(c: Config, s: State, h: nat, id: RunId, report: Report, holder: Key, at: Time)
    requires WellFormed(s) && Crowded(s, h)
    ensures Crowded(Delivered(c, s, id, report, holder, at), h)
  {
    hide Next, Crowded, Gates.Reported, Gates.Finished;
    var event := if report.Yielded? then report.event else RunStarted;
    Gates.ReportIsTwoSteps(c, s, id, event, holder, at);
    var ack, push := LateAck(id, holder), Push(id, CommandFor(report));
    AlwaysEnabled(s, id, holder, CommandFor(report));
    if report.Yielded? {
      CrowdedStays(c, s, h, ack, at);
      var acked := BrokerSpec.Next(c, s, ack, at);
      AlwaysEnabled(acked, id, holder, CommandFor(report));
      CrowdedStays(c, acked, h, push, at);
    } else {
      CrowdedStays(c, s, h, push, at);
    }
  }

  lemma AlwaysEnabled(s: State, id: RunId, holder: Key, cmd: Command)
    ensures Enabled(s, LateAck(id, holder)) && Enabled(s, Push(id, cmd))
  {
  }

  lemma TiedIsOwned(w: Watch, sys: System)
    requires Tied(w, sys)
    ensures IsWatched(w, sys.broker) && (!sys.broker.made[w.run].ended ==> SolelyOwned(sys.broker, w.run))
  {
  }

  /** The hypothesis is exact: until the run is over, it is in step with its round if and only if no offer of it has
      been accepted or refused. */
  lemma {:induction false} TiedIffSpared(w: Watch, systems: seq<System>, acts: seq<Act>)
    requires Follows(w, systems, acts)
    requires var last := systems[|acts|].broker; w.run < |last.made| && !last.made[w.run].ended
    ensures Tied(w, systems[|acts|]) <==> AllSpare(w, systems, acts)
  {
    hide Fit, Tied, Possible, After, Spares, Crowded;
    if AllSpare(w, systems, acts) {
      AlwaysTied(w, systems, acts, |acts|);
    } else {
      var i := FirstOvertaking(w, systems, acts);
      OvertakingCrowds(w, systems, acts, i);
      CrowdedUpTo(w, systems, acts, i + 1, |acts|);
      CrowdedIsUntied(w, systems[|acts|]);
    }
  }

  lemma FirstOvertaking(w: Watch, systems: seq<System>, acts: seq<Act>) returns (i: nat)
    requires |systems| == |acts| + 1 && !AllSpare(w, systems, acts)
    ensures i < |acts| && !Spares(w, systems[i], acts[i]) && AllSpare(w, systems[..i + 1], acts[..i])
  {
    hide Spares;
    i := 0;
    while Spares(w, systems[i], acts[i])
      invariant i < |acts| && forall k :: 0 <= k < i ==> Spares(w, systems[k], acts[k])
      decreases |acts| - i
    {
      i := i + 1;
    }
  }

  lemma OvertakingCrowds(w: Watch, systems: seq<System>, acts: seq<Act>, i: nat)
    requires Follows(w, systems, acts) && i < |acts| && !Spares(w, systems[i], acts[i])
    requires AllSpare(w, systems[..i + 1], acts[..i])
    ensures Crowded(systems[i + 1].broker, w.run)
  {
    hide Fit, Tied, Crowded, SolelyOwned, Next, Overtaken;
    AlwaysTied(w, systems[..i + 1], acts[..i], i);
    assert Acts(w, systems[i], acts[i], systems[i + 1]);
    TiedIsOwned(w, systems[i]);
    FitIsWellFormed(systems[i].broker);
    if systems[i].broker.made[w.run].ended {
      EndedIsCrowded(systems[i].broker, w.run);
      CrowdedStays(w.c, systems[i].broker, w.run, acts[i].step, acts[i].at);
    } else {
      OvertakenCrowds(w.c, systems[i].broker, w.run, acts[i].step, acts[i].at);
    }
  }

  lemma EndedIsCrowded(s: State, run: nat)
    requires run < |s.made| && s.made[run].ended
    ensures Crowded(s, run)
  {
  }

  lemma {:induction false} CrowdedUpTo(w: Watch, systems: seq<System>, acts: seq<Act>, i: nat, n: nat)
    requires Follows(w, systems, acts) && i <= n <= |acts| && Crowded(systems[i].broker, w.run)
    ensures Crowded(systems[n].broker, w.run)
  {
    hide Fit, Tied, Possible, After, Crowded;
    if i < n {
      CrowdedUpTo(w, systems, acts, i, n - 1);
      assert Acts(w, systems[n - 1], acts[n - 1], systems[n - 1 + 1]);
      CrowdedAfter(w, systems[n - 1], acts[n - 1]);
    }
  }

  lemma CrowdedIsUntied(w: Watch, sys: System)
    requires Crowded(sys.broker, w.run) && w.run < |sys.broker.made| && !sys.broker.made[w.run].ended
    ensures !Tied(w, sys)
  {
  }
}

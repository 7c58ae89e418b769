/**
 What a solely owned run keeps over every execution of the whole system: what its caller is streamed, what is stored
 of it, what its row says in the end, and that the caller gets what the agent yielded.
 */
module OwnedRuns {
  import opened Basics
  import opened Events
  import opened BrokerSpec
  import opened BrokerStranded
  import opened BrokerOwnership
  import opened PipelineSpec
  import opened PipelineMeaning
  import opened PipelineStream
  import opened Wires
  import opened Dispatch
  import PipelineRounds
  import PipelineSettles
  import Reduce
  import PipelineRecords
  import Statuses

  /** What the subscriber has been sent: a closing handler's last event comes before its pipeline signals the end. */
  function Sent(w: Watch, sys: System): seq<Item>
    requires IsWatched(w, sys.broker)
  {
    var t := RoundOf(w, sys);
    if t.ended && !LetGo(w, sys) && t.out != [] then t.out[..|t.out| - 1] else t.out
  }

  /** The run's END_OF_STREAM is out. */
  predicate LetGo(w: Watch, sys: System)
    requires IsWatched(w, sys.broker)
  {
    sys.broker.made[w.run].ended
  }

  // ---------------------------------------------------------------------------------- the stream

  lemma TiedEnds(w: Watch, sys: System)
    requires Tied(w, sys)
    ensures LetGo(w, sys) ==> RoundOf(w, sys).ended
  {
  }

  /** Without lost writes, the caller of a solely owned run is sent exactly the events its round stored, in order, and
      END exactly when its broker lets go of it; the stored seqs follow on without a gap. */
  lemma OwnedRunStreamsItsRound(w: Watch, systems: seq<System>, acts: seq<Act>)
    requires Follows(w, systems, acts) && AllSpare(w, systems, acts)
    requires Begins(w.start) && Clean(systems[|acts|].turns)
    ensures IsWatched(w, systems[|acts|].broker)
    ensures var sys := systems[|acts|];
      var entries := NewEntries(w.start, RoundOf(w, sys));
      && Sent(w, sys) == AsItems(EventsOf(entries)) + (if LetGo(w, sys) then [EndOfStream] else [])
      && forall i :: 0 <= i < |entries| ==> entries[i].seqNo == w.start.seqNo + 1 + i
  {
    hide Run, Begins;
    var sys := systems[|acts|];
    AlwaysTied(w, systems, acts, |acts|);
    TiedEnds(w, sys);
    SubscriberGetsTheRound(w.start, sys.turns);
    hide Tied, EventsOf, AsItems;
  }

  /** END comes last, and is sent exactly when the run is over. */
  predicate EndsAtTheEnd(sent: seq<Item>, over: bool) {
    && (forall i :: 0 <= i < |sent| ==> (sent[i].EndOfStream? <==> over && i == |sent| - 1))
    && (over ==> sent != [])
  }

  lemma EndIsNoSending(out: seq<Item>)
    ensures out != [] && out[|out| - 1].EndOfStream? ==> Sendings(out) == Sendings(out[..|out| - 1])
  {
  }

  /** Whatever writes are lost, what the caller of a solely owned run is sent was stored first, in the same order,
      under growing seqs, and END comes last and exactly when its broker lets go of it. */
  lemma OwnedRunStoresFirst(w: Watch, systems: seq<System>, acts: seq<Act>)
    requires Follows(w, systems, acts) && AllSpare(w, systems, acts)
    requires Begins(w.start)
    ensures IsWatched(w, systems[|acts|].broker)
    ensures var sys := systems[|acts|];
      var t := RoundOf(w, sys);
      && EndsAtTheEnd(Sent(w, sys), LetGo(w, sys))
      && LeavesOut(Sendings(Sent(w, sys)), EventsOf(NewEntries(w.start, t))) && SeqsGrow(w.start, t)
  {
    hide Run, Begins;
    var sys := systems[|acts|];
    AlwaysTied(w, systems, acts, |acts|);
    TiedEnds(w, sys);
    StreamedWasStoredFirst(w.start, sys.turns);
    hide Tied, EventsOf, LeavesOut;
    EndIsNoSending(RoundOf(w, sys).out);
  }

  // ------------------------------------------------------------------------- what the row says

  /** When a solely owned run is over its row is settled if and only if a sweep failed it, or the closing command's
      status was written and either a claim's was too or that status is cancelled or failed. */
  lemma OwnedRunSettlesIffWritten(w: Watch, systems: seq<System>, acts: seq<Act>)
    requires Follows(w, systems, acts) && AllSpare(w, systems, acts)
    requires !w.start.ended && w.start.claimed && w.start.row.status == Statuses.Queued
    requires var last := systems[|acts|].broker; IsWatched(w, last) && last.made[w.run].ended
    ensures var turns := systems[|acts|].turns;
      && Run(w.start, turns).ended
      && var closer := PipelineSettles.CloserOf(w.start, turns);
         PipelineRecords.Settled(Run(w.start, turns).row.status)
         <==> PipelineSettles.SweptFailed(w.start, turns)
              || (closer.MarkWritten()
                  && (PipelineSettles.ClaimWritten(w.start, turns)
                      || closer.Wanted() == Statuses.Cancelled || closer.Wanted() == Statuses.Failed))
  {
    AlwaysTied(w, systems, acts, |acts|);
    TiedEnds(w, systems[|acts|]);
    hide Run;
    PipelineSettles.SettledIffWritten(w.start, systems[|acts|].turns);
  }

  /** Its row at the end of its stream, whatever others wrote to it after its close: settled if and only if they failed
      it, or the close left it settled and no reopen has won since. */
  lemma OwnedRunSettledAtItsEnd(w: Watch, systems: seq<System>, acts: seq<Act>, late: seq<Statuses.Moment>)
    requires Follows(w, systems, acts) && AllSpare(w, systems, acts) && PipelineSettles.OthersOnly(late)
    requires !w.start.ended && w.start.claimed && w.start.row.status == Statuses.Queued
    requires var last := systems[|acts|].broker; IsWatched(w, last) && last.made[w.run].ended
    ensures var turns := systems[|acts|].turns;
      && Run(w.start, turns).ended
      && var closer, row := PipelineSettles.CloserOf(w.start, turns), Run(w.start, turns).row;
         var after := PipelineSettles.RowAfter(row, late).status;
         PipelineRecords.Settled(after)
         <==> after == Statuses.Failed
              || (&& !PipelineSettles.ReopenWins(row, late)
                  && (PipelineSettles.SweptFailed(w.start, turns)
                      || (closer.MarkWritten()
                          && (PipelineSettles.ClaimWritten(w.start, turns)
                              || closer.Wanted() == Statuses.Cancelled || closer.Wanted() == Statuses.Failed))))
  {
    AlwaysTied(w, systems, acts, |acts|);
    TiedEnds(w, systems[|acts|]);
    hide Run;
    PipelineSettles.SettledAtTheEndIff(w.start, systems[|acts|].turns, late);
  }

  /** The thread gets the round's reply, and gets it once the run is over, if and only if the finish that closed it
      completes or pauses it, a claim had been written, no sweep had failed the row and no call of it was lost. */
  lemma OwnedRunRepliesIffWritten(w: Watch, systems: seq<System>, acts: seq<Act>)
    requires Follows(w, systems, acts) && AllSpare(w, systems, acts)
    requires Begins(w.start) && w.start.claimed
    requires w.start.row.status == Statuses.Queued
    requires var last := systems[|acts|].broker; IsWatched(w, last) && last.made[w.run].ended
    ensures var turns := systems[|acts|].turns;
      && Run(w.start, turns).ended
      && var t, closer := Run(w.start, turns), PipelineSettles.CloserOf(w.start, turns);
         t.replies == w.start.replies
           + if closer.WantsReply() && PipelineSettles.ClaimWritten(w.start, turns)
                && !PipelineSettles.SweptFailed(w.start, turns) && !Raises(closer.fault, 2)
             then PipelineRounds.HandedOver(Reduce.Messages(EventsOf(NewEntries(w.start, t)))) else []
  {
    AlwaysTied(w, systems, acts, |acts|);
    TiedEnds(w, systems[|acts|]);
    hide Run, Begins, EventsOf, Reduce.Messages;
    PipelineSettles.ReplyIffWritten(w.start, systems[|acts|].turns);
  }

  // ------------------------------------------------------------------------------ what has come

  /** What an act puts on the run's in_queue, as the broker's rules have it: a push or a cancel under its id, a
      report of its own by its holder, or the Fail an older run's leftover pipeline sends. */
  ghost function Came(w: Watch, sys: System, act: Act): seq<Command>
    requires IsWatched(w, sys.broker) && Possible(w, sys, act)
  {
    if LetGo(w, sys) then []
    else
      match act
      case Moves(step, _, _, _) => if Takes(step, w.run) then [] else Arrival(sys.broker, w.run, step)
      case Puts(_, _) => []
      case Reports(_) => if sys.output[0].0 == w.id then [CommandFor(sys.output[0].1)] else []
  }

  /** Everything that has reached the run's in_queue since its pipeline started. */
  function Reached(sys: System): seq<Command> {
    Arrived(sys.turns) + sys.buffer
  }

  lemma ReachedByTurn(sys: System, next: System, turn: Turn)
    requires turn.arrivals == sys.buffer && next.turns == sys.turns + [turn] && next.buffer == []
    ensures Reached(next) == Reached(sys) + []
  {
    assert next.turns[..|sys.turns|] == sys.turns;
  }

  lemma ReachedMore(sys: System, next: System, came: seq<Command>)
    requires next.turns == sys.turns && next.buffer == sys.buffer + came
    ensures Reached(next) == Reached(sys) + came
  {
  }

  lemma PushedIs(s: State, t: State, run: nat, came: seq<Command>)
    requires run < |s.made| && run < |t.made| && t.made[run].inQueue == s.made[run].inQueue + came
    ensures Pushed(s, t, run) == came
  {
  }

  lemma OwnCompletePushesNothing(w: Watch, sys: System, act: Act)
    requires Fit(sys.broker) && Tied(w, sys) && Possible(w, sys, act) && !sys.broker.made[w.run].ended
    requires act.Moves? && act.step.Complete? && act.step.run == w.run
    ensures Came(w, sys, act) == [] && WellFormed(sys.broker)
    ensures var t := After(w, sys, act).broker;
      w.run < |t.made| && t.made[w.run].inQueue == sys.broker.made[w.run].inQueue
  {
    hide Fit, CompleteCommand, Run, Retired, CanComplete, Closing, Pushed;
    FitIsWellFormed(sys.broker);
    CompletesNow(sys.broker, w.run, act.step.task);
    OwnComplete(sys.broker, w.run, act.step.task);
    NextTakes(w.c, sys.broker, w.run, act.step.task, act.at);
  }

  lemma MovesBring(w: Watch, sys: System, act: Act)
    requires Fit(sys.broker) && Tied(w, sys) && Possible(w, sys, act) && act.Moves? && Spares(w, sys, act)
    ensures WellFormed(sys.broker) && Reached(After(w, sys, act)) == Reached(sys) + Came(w, sys, act)
  {
    hide Fit, SolelyOwned, Run, Retired, CanTake, CanComplete, Next, InStep, Kept, Pushed, Reached, Arrival;
    FitIsWellFormed(sys.broker);
    var s, step, next := sys.broker, act.step, After(w, sys, act);
    if LetGo(w, sys) {
      RetiredStays(w.c, s, w.run, step, act.at);
      RetiredTakesNothing(s, w.run, step);
      RetiredIsMade(next.broker, w.run);
      PushedNothing(s, next.broker, w.run);
      ReachedMore(sys, next, []);
    } else if Takes(step, w.run) {
      ReachedByTurn(sys, next, next.turns[|sys.turns|]);
    } else if step.Complete? && step.run == w.run {
      OwnCompletePushesNothing(w, sys, act);
      PushedNothing(s, next.broker, w.run);
      ReachedMore(sys, next, []);
    } else {
      OthersKeep(w.c, s, w.run, step, act.at);
      KeptIsMade(s, next.broker, w.run);
      PushedIs(s, next.broker, w.run, Arrival(s, w.run, step));
      ReachedMore(sys, next, Arrival(s, w.run, step));
    }
  }

  lemma KeptIsMade(s: State, t: State, run: nat)
    requires Kept(s, t, run)
    ensures run < |s.made| && run < |t.made|
  {
  }

  lemma ReportsBring(w: Watch, sys: System, act: Act)
    requires Fit(sys.broker) && Tied(w, sys) && Possible(w, sys, act) && act.Reports?
    ensures WellFormed(sys.broker) && Reached(After(w, sys, act)) == Reached(sys) + Came(w, sys, act)
  {
    hide Fit, SolelyOwned, Run, Retired, InStep, Kept, Pushed, Delivered, Reached;
    FitIsWellFormed(sys.broker);
    var (id, report) := sys.output[0];
    var s, next := sys.broker, After(w, sys, act);
    if LetGo(w, sys) {
      DeliveredLeavesAlone(w.c, s, w.run, id, report, w.holder, act.at);
      RetiredIsMade(next.broker, w.run);
      PushedNothing(s, next.broker, w.run);
    } else {
      DeliveredKeeps(w.c, s, w.run, id, report, w.holder, act.at);
      KeptIsMade(s, next.broker, w.run);
      PushedIs(s, next.broker, w.run, Came(w, sys, act));
    }
    ReachedMore(sys, next, Came(w, sys, act));
  }

  /** The loop's arrivals are the broker's pushes: each act brings the round exactly what it puts on the in_queue. */
  lemma ArrivalsArePushes(w: Watch, sys: System, act: Act)
    requires Fit(sys.broker) && Tied(w, sys) && Possible(w, sys, act) && Spares(w, sys, act)
    ensures WellFormed(sys.broker) && Reached(After(w, sys, act)) == Reached(sys) + Came(w, sys, act)
  {
    hide Fit, Tied, Pushed, Delivered, Next, Arrival;
    match act
    case Moves(_, _, _, _) => MovesBring(w, sys, act);
    case Puts(_, _) =>
      FitIsWellFormed(sys.broker);
      assert sys.buffer + [] == sys.buffer;
      ReachedMore(sys, After(w, sys, act), []);
    case Reports(_) => ReportsBring(w, sys, act);
  }

  /** All that the broker has put on the run's in_queue in the course of these acts. */
  ghost function AllCame(w: Watch, systems: seq<System>, acts: seq<Act>, n: nat): seq<Command>
    requires n <= |acts| && |systems| == |acts| + 1
    requires forall i :: 0 <= i < n ==> IsWatched(w, systems[i].broker) && Possible(w, systems[i], acts[i])
  {
    if n == 0 then [] else AllCame(w, systems, acts, n - 1) + Came(w, systems[n - 1], acts[n - 1])
  }

  lemma AlwaysWatched(w: Watch, systems: seq<System>, acts: seq<Act>)
    requires Follows(w, systems, acts) && AllSpare(w, systems, acts)
    ensures forall i :: 0 <= i < |acts| ==> IsWatched(w, systems[i].broker) && Possible(w, systems[i], acts[i])
  {
    hide Fit, Tied, Possible, After, IsWatched;
    forall i | 0 <= i < |acts| ensures IsWatched(w, systems[i].broker) && Possible(w, systems[i], acts[i]) {
      AlwaysTied(w, systems, acts, i);
      TiedIsWatched(w, systems[i]);
      assert Acts(w, systems[i], acts[i], systems[i + 1]);
    }
  }

  lemma TiedIsWatched(w: Watch, sys: System)
    requires Tied(w, sys)
    ensures IsWatched(w, sys.broker)
  {
  }

  lemma {:induction false} ReachedIsAllThatCame(w: Watch, systems: seq<System>, acts: seq<Act>, n: nat)
    requires Follows(w, systems, acts) && AllSpare(w, systems, acts)
    requires n <= |acts|
    requires forall i :: 0 <= i < |acts| ==> IsWatched(w, systems[i].broker) && Possible(w, systems[i], acts[i])
    ensures Reached(systems[n]) == Reached(systems[0]) + AllCame(w, systems, acts, n)
  {
    hide Fit, Tied, Possible, After, IsWatched, Reached, Came, Spares;
    if n > 0 {
      ReachedIsAllThatCame(w, systems, acts, n - 1);
      AlwaysTied(w, systems, acts, n - 1);
      assert Acts(w, systems[n - 1], acts[n - 1], systems[n - 1 + 1]);
      ArrivalsArePushes(w, systems[n - 1], acts[n - 1]);
    } else {
      assert AllCame(w, systems, acts, 0) == [];
    }
  }

  /** What a solely owned run comes to is a function of what the broker has put on its in_queue: once it is over,
      without lost writes, its stored events are those relayed before the first deciding command, then the verdict. */
  lemma OwnedRunIsWhatCame(w: Watch, systems: seq<System>, acts: seq<Act>)
    requires Follows(w, systems, acts) && AllSpare(w, systems, acts)
    requires Begins(w.start) && w.start.claimed && Clean(systems[|acts|].turns)
    requires var last := systems[|acts|].broker; IsWatched(w, last) && last.made[w.run].ended
    ensures forall i :: 0 <= i < |acts| ==> IsWatched(w, systems[i].broker) && Possible(w, systems[i], acts[i])
    ensures var t := RoundOf(w, systems[|acts|]);
      var came := Reached(systems[0]) + AllCame(w, systems, acts, |acts|);
      && FirstDeciding(came) < |came|
      && EventsOf(NewEntries(w.start, t)) == Expected(came, t.cancelRequested)
  {
    AlwaysWatched(w, systems, acts);
    ReachedIsAllThatCame(w, systems, acts, |acts|);
    AlwaysTied(w, systems, acts, |acts|);
    var sys := systems[|acts|];
    TiedEnds(w, sys);
    RoundIsItsArrivals(w.start, sys.turns);
    FirstDecidingGrows(Arrived(sys.turns), sys.buffer);
    hide Run, Relayed, EventsOf, Tied, Possible, Begins, AllCame, IsWatched, Arrived;
    SameExpected(Arrived(sys.turns), sys.buffer, RoundOf(w, sys).cancelRequested);
  }

  /** Nothing behind the first deciding command counts. */
  lemma SameExpected(commands: seq<Command>, more: seq<Command>, cancelled: bool)
    requires FirstDeciding(commands) < |commands|
    ensures FirstDeciding(commands + more) == FirstDeciding(commands)
    ensures Expected(commands + more, cancelled) == Expected(commands, cancelled)
  {
    FirstDecidingGrows(commands, more);
    assert (commands + more)[..FirstDeciding(commands)] == commands[..FirstDeciding(commands)];
  }

  /** Its row, if it was queued and a claim came first, has the status those commands deserve, unless a sweep
      failed it. */
  lemma OwnedRunGetsItsStatus(w: Watch, systems: seq<System>, acts: seq<Act>)
    requires Follows(w, systems, acts) && AllSpare(w, systems, acts)
    requires Begins(w.start) && w.start.claimed && Clean(systems[|acts|].turns)
    requires w.start.row.status == Statuses.Queued
    requires Reached(systems[0]) != [] && Reached(systems[0])[0].Claim?
    requires var last := systems[|acts|].broker; IsWatched(w, last) && last.made[w.run].ended
    ensures var t, came := RoundOf(w, systems[|acts|]), Reached(systems[|acts|]);
      && FirstDeciding(came) < |came|
      && PipelineRecords.Settled(t.row.status)
      && (t.row.status == ExpectedStatus(came, t.cancelRequested)
          || (!PipelineRecords.Unswept(systems[|acts|].turns) && t.row.status == Statuses.Failed))
  {
    AlwaysWatched(w, systems, acts);
    ReachedIsAllThatCame(w, systems, acts, |acts|);
    AlwaysTied(w, systems, acts, |acts|);
    var sys := systems[|acts|];
    TiedEnds(w, sys);
    assert Reached(sys)[0].Claim?;
    hide Run, Relayed, EventsOf, Tied, Possible, Begins, AllCame, IsWatched, Arrived, ExpectedStatus;
    assert PipelineRecords.BeginsWithClaim(Arrived(sys.turns));
    PipelineRecords.SettledAtForget(w.start, sys.turns);
    SameStatus(Arrived(sys.turns), sys.buffer, RoundOf(w, sys).cancelRequested);
  }

  lemma SameStatus(commands: seq<Command>, more: seq<Command>, cancelled: bool)
    requires FirstDeciding(commands) < |commands|
    ensures FirstDeciding(commands + more) == FirstDeciding(commands)
    ensures ExpectedStatus(commands + more, cancelled) == ExpectedStatus(commands, cancelled)
  {
    FirstDecidingGrows(commands, more);
    assert (commands + more)[..FirstDeciding(commands)] == commands[..FirstDeciding(commands)];
  }
}

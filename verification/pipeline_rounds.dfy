/**
 Rounds of one run side by side: how they share the log, what reply each hands to the thread, how the
 A2A stream of one ends, and what a one-shot or a lost write leaves behind.
 */
module PipelineRounds {
  import opened Basics
  import opened Events
  import opened Statuses
  import opened PipelineSpec
  import opened PipelineMeaning
  import opened PipelineRecords
  import opened PipelineStream
  import Reduce
  import A2A

  // ----------------------------------------------------------------------------------- the log

  /** `coalesce(max(seq), 0)`. */
  function LastSeq(log: seq<Entry>): nat {
    if log == [] then 0 else Max(LastSeq(log[..|log| - 1]), log[|log| - 1].seqNo)
  }

  lemma {:induction false} LastSeqBounds(log: seq<Entry>)
    ensures forall i :: 0 <= i < |log| ==> log[i].seqNo <= LastSeq(log)
  {
    if log != [] {
      LastSeqBounds(log[..|log| - 1]);
      assert forall i :: 0 <= i < |log| - 1 ==> log[i] == log[..|log| - 1][i];
    }
  }

  lemma {:induction false} SinceTheStart(log: seq<Entry>, n: nat, since: nat)
    requires n <= |log|
    requires forall i :: 0 <= i < n ==> log[i].seqNo <= since
    requires forall i :: n <= i < |log| ==> since < log[i].seqNo
    ensures EventsSince(log, since) == EventsOf(log[n..])
  {
    hide EventsOf;
    EventsOfNone();
    if log == [] {
      assert log[n..] == [];
    } else {
      var before, last := log[..|log| - 1], log[|log| - 1];
      assert forall i :: 0 <= i < |before| ==> before[i] == log[i];
      if n < |log| {
        SinceTheStart(before, n, since);
        EventsOfOneMore(before[n..], last);
        assert log[n..] == before[n..] + [last];
      } else {
        SinceTheStart(before, |before|, since);
        assert log[n..] == before[|before|..] == [];
      }
    }
  }

  lemma EventsOfNone()
    ensures EventsOf([]) == []
  {
  }

  lemma EventsOfOneMore(entries: seq<Entry>, last: Entry)
    ensures EventsOf(entries + [last]) == EventsOf(entries) + [last.event]
  {
  }

  /** A round played: how it was enqueued and the turns its loop took. */
  datatype Played = Played(start: Round, turns: seq<Turn>) {
    function End(): Round {
      Run(start, turns)
    }

    function Stored(): seq<Entry> {
      NewEntries(start, End())
    }
  }

  /** Each round after the first begins on the log its predecessor left, at that log's last seq. */
  predicate Consecutive(rounds: seq<Played>) {
    && (forall i :: 0 <= i < |rounds| ==> Begins(rounds[i].start))
    && (rounds != [] ==> rounds[0].start.log == [])
    && (forall i :: 0 < i < |rounds| ==>
          rounds[i].start.log == rounds[i - 1].End().log && rounds[i].start.startingSeq == LastSeq(rounds[i].start.log))
  }

  function AllStored(rounds: seq<Played>): seq<Entry> {
    if rounds == [] then [] else AllStored(rounds[..|rounds| - 1]) + rounds[|rounds| - 1].Stored()
  }

  /** What a round's finish reads back is what that round stored, also when some of its writes failed. */
  lemma RoundReadsItself(s: Round, turns: seq<Turn>)
    requires Begins(s)
    ensures EventsSince(Run(s, turns).log, s.startingSeq) == EventsOf(NewEntries(s, Run(s, turns)))
  {
    StreamedWasStoredFirst(s, turns);
    var t := Run(s, turns);
    hide Run;
    assert forall i :: 0 <= i < |s.log| ==> t.log[i] == s.log[i];
    SinceTheStart(t.log, |s.log|, s.startingSeq);
  }

  lemma RoundExtendsTheLog(round: Played)
    requires Begins(round.start)
    ensures round.End().log == round.start.log + round.Stored() && Increasing(round.End().log)
  {
    StreamedWasStoredFirst(round.start, round.turns);
  }

  /** A run enqueued again at the last stored seq begins properly, whatever its earlier round lost. */
  lemma ResumedRoundBegins(round: Played, start: Round)
    requires Begins(round.start) && start.log == round.End().log
    requires start.seqNo == start.startingSeq == LastSeq(start.log)
    requires !start.ended && start.inQueue == [] && start.out == []
    requires !start.sawFinished && !start.sawError && start.pause.None? && !start.cancelRequested
    ensures Begins(start)
  {
    RoundExtendsTheLog(round);
    LastSeqBounds(start.log);
  }

  lemma {:induction false} LogIsItsRounds(rounds: seq<Played>)
    requires Consecutive(rounds) && rounds != []
    ensures rounds[|rounds| - 1].End().log == AllStored(rounds)
  {
    var n := |rounds| - 1;
    var before, last := rounds[..n], rounds[n];
    RoundExtendsTheLog(last);
    hide Run, Increasing, Begins, LastSeq, NewEntries;
    if n > 0 {
      assert forall i :: 0 <= i < n ==> before[i] == rounds[i];
      LogIsItsRounds(before);
      assert last.start.log == before[n - 1].End().log;
    } else {
      assert AllStored(before) == [];
    }
  }

  /** Resume rounds partition the run's log: it is the rounds' entries one after the other, seqs growing
      across all of them, and each round reads back exactly its own. */
  lemma RoundsPartitionTheLog(rounds: seq<Played>)
    requires Consecutive(rounds) && rounds != []
    ensures rounds[|rounds| - 1].End().log == AllStored(rounds) && Increasing(AllStored(rounds))
    ensures forall i :: 0 <= i < |rounds| ==>
              EventsSince(rounds[i].End().log, rounds[i].start.startingSeq) == EventsOf(rounds[i].Stored())
  {
    LogIsItsRounds(rounds);
    RoundExtendsTheLog(rounds[|rounds| - 1]);
    forall i | 0 <= i < |rounds|
      ensures EventsSince(rounds[i].End().log, rounds[i].start.startingSeq) == EventsOf(rounds[i].Stored())
    {
      RoundReadsItself(rounds[i].start, rounds[i].turns);
    }
  }

  // --------------------------------------------------------------------------------- the reply

  /** Before the end, nothing has been handed to the thread. */
  lemma {:induction false} NoReplyBeforeTheEnd(s: Round, turns: seq<Turn>)
    requires Begins(s) && Clean(turns)
    ensures !Run(s, turns).ended ==> Run(s, turns).replies == s.replies
  {
    if turns != [] {
      var before, last := turns[..|turns| - 1], turns[|turns| - 1];
      NoReplyBeforeTheEnd(s, before);
      var t := Run(s, before);
      if !t.ended {
        var ready := Interfered(t, last);
        if ready.inQueue != [] {
          KeepsReplies(ready.(inQueue := ready.inQueue[1..]), ready.inQueue[0], last.fault, last.now);
        }
      }
      hide Handled;
    }
  }

  lemma KeepsReplies(t: Round, cmd: Command, fault: Fault, now: Time)
    ensures !cmd.FinishStream? ==> Handled(t, cmd, fault, now).replies == t.replies
  {
  }

  function HandedOver(messages: seq<Reduce.Message>): seq<seq<Reduce.Message>> {
    if messages == [] then [] else [messages]
  }

  lemma {:induction false} ReplyIsTheRound(s: Round, turns: seq<Turn>)
    requires Begins(s) && s.claimed && s.row.status == Queued && Clean(turns) && BeginsWithClaim(Arrived(turns))
    requires Run(s, turns).ended
    ensures var t := Run(s, turns);
      t.replies == s.replies + if t.row.status == Completed || t.row.status == InputRequired
                               then HandedOver(Reduce.Messages(EventsSince(t.log, s.startingSeq))) else []
  {
    var before, last := turns[..|turns| - 1], turns[|turns| - 1];
    assert turns == before + [last];
    if Run(s, before).ended {
      assert Run(s, turns) == Run(s, before);
      CleanBefore(before, last);
      hide Run, Arrived;
      ReplyIsTheRound(s, before);
    } else {
      LastTurnReplies(s, before, last);
    }
  }

  /** A clean round that ends completed or paused hands the thread exactly the reduction of the events its
      subscriber saw, and any other end hands over nothing. */
  lemma ReplyIsWhatWasStreamed(s: Round, turns: seq<Turn>)
    requires Begins(s) && s.claimed && s.row.status == Queued && Clean(turns) && BeginsWithClaim(Arrived(turns))
    requires Run(s, turns).ended
    ensures var t := Run(s, turns);
      t.replies == s.replies + if t.row.status == Completed || t.row.status == InputRequired
                               then HandedOver(Reduce.Messages(Sendings(t.out))) else []
  {
    ReplyIsTheRound(s, turns);
    SubscriberGetsTheRound(s, turns);
    SendingsOf(EventsOf(NewEntries(s, Run(s, turns))));
    RoundReadsItself(s, turns);
  }

  lemma {:induction false} SendingsOf(events: seq<Event>)
    ensures Sendings(AsItems(events)) == events
    ensures Sendings(AsItems(events) + [EndOfStream]) == events
  {
    if events != [] {
      SendingsOf(events[..|events| - 1]);
      assert AsItems(events)[..|events| - 1] == AsItems(events[..|events| - 1]);
    }
    SendingsGrow(AsItems(events), RunStarted);
  }

  /** The closing turn either marks the row and hands the round over, or does neither. */
  lemma LastTurnReplies(s: Round, before: seq<Turn>, last: Turn)
    requires Begins(s) && s.claimed && s.row.status == Queued && Clean(before + [last])
    requires BeginsWithClaim(Arrived(before + [last]))
    requires !Run(s, before).ended && Run(s, before + [last]).ended
    ensures var t := Run(s, before + [last]);
      t.replies == s.replies + if t.row.status == Completed || t.row.status == InputRequired
                               then HandedOver(Reduce.Messages(EventsSince(t.log, s.startingSeq))) else []
  {
    hide Handled, Run, RowFits, Arrived, Reduce.Messages, EventsSince, EventsOf, Begins, Swept;
    var turns, u := before + [last], Run(s, before);
    CleanBefore(before, last);
    NoReplyBeforeTheEnd(s, before);
    SubscriberGetsTheRound(s, before);
    RoundFits(s, before);
    NeverDoneEarly(s, u, Arrived(before), !Unswept(before));
    SweptOrNot(u.row, last.sweeps, last.now);
    RunOneMore(s, before, last);
    var ready := Interfered(u, last);
    var rest, cmd := ready.(inQueue := ready.inQueue[1..]), ready.inQueue[0];
    ClosingReplies(rest, cmd, last.now);
    HandlerEmits(rest, cmd, None, last.now);
    assert Run(s, turns) == Ended(Handled(rest, cmd, None, last.now));
  }

  lemma NeverDoneEarly(s: Round, t: Round, commands: seq<Command>, swept: bool)
    requires !t.ended && RowFits(s, t, commands, swept)
    ensures t.row.status != Completed && t.row.status != InputRequired
  {
  }

  lemma ClosingReplies(t: Round, cmd: Command, now: Time)
    requires t.row.status != Completed && t.row.status != InputRequired
    ensures var u := Handled(t, cmd, None, now);
      u.replies == t.replies + if u.row.status == Completed || u.row.status == InputRequired
                               then HandedOver(Reduce.Messages(EventsSince(u.log, t.startingSeq))) else []
  {
    hide Reduce.Messages, EventsSince, Finishing, Relaying, Failing;
    match cmd
    case FinishStream => FinishReplies(t, now);
    case RelayEvent(event) => RelayReplies(t, event, now);
    case Fail(reason) => FailReplies(t, reason, now);
    case _ =>
  }

  lemma RelayReplies(t: Round, event: Event, now: Time)
    ensures var u := Relaying(t, event, None, now);
      u.replies == t.replies && u.row.status == t.row.status
  {
  }

  lemma FailReplies(t: Round, reason: string, now: Time)
    ensures var u := Failing(t, reason, None, now);
      u.replies == t.replies && u.row.status in {t.row.status, Failed}
  {
  }

  lemma FinishReplies(t: Round, now: Time)
    requires t.row.status != Completed && t.row.status != InputRequired
    ensures var u := Finishing(t, None, now);
      u.replies == t.replies + if u.row.status == Completed || u.row.status == InputRequired
                               then HandedOver(Reduce.Messages(EventsSince(u.log, t.startingSeq))) else []
  {
    hide Reduce.Messages, EventsSince, Target;
    assert OwesReply(t) <==> MarkedRow(t.row, Target(t), now).status in {Completed, InputRequired};
  }

  // ----------------------------------------------------------------------------- the A2A stream

  /** If nothing follows RUN_FINISHED, the last status an A2A caller is streamed is the stored one. */
  lemma LastStatusStreamedIsStored(s: Round, turns: seq<Turn>)
    requires Begins(s) && s.claimed && s.row.status == Queued && Clean(turns) && BeginsWithClaim(Arrived(turns))
    requires Run(s, turns).ended
    requires var events := Sendings(Run(s, turns).out);
      forall i :: 0 <= i < |events| && events[i].RunFinished? ==> i == |events| - 1
    ensures var t := Run(s, turns);
      A2A.LastState(A2A.Streamed(Sendings(t.out), t.row.status)) == Some(A2A.StateFor(t.row.status))
  {
    var t, commands := Run(s, turns), Arrived(turns);
    var events := Sendings(t.out);
    SubscriberGetsTheRound(s, turns);
    SendingsOf(EventsOf(NewEntries(s, t)));
    RoundIsItsArrivals(s, turns);
    SettledAtForget(s, turns);
    hide Run, Arrived, EventsOf, Sendings, Relayed;
    if t.row.status == Completed {
      assert events == Relayed(commands[..FirstDeciding(commands)]) + [];
      assert AnyFinished(events) && !AnyAsking(events);
      var e :| e in events && e.RunFinished?;
      assert events[|events| - 1] == e;
      assert A2A.SaysDone(e);
    }
    A2A.LastStatusIsStored(events, t.row.status);
  }

  // ------------------------------------------------------------------ one-shots and lost writes

  /** A one-shot leaves the row settled if and only if it fails the run, or cancels it unclaimed, or the row was
      settled before. Cancelling a run that has been claimed in the meantime only asks, and its row, queued,
      running or cancelling, is left to a pipeline that nothing will tell to finish. */
  lemma OneShotSettles(s: Round, cmd: Command, now: Time)
    requires cmd.Fail? || cmd.RequestCancel?
    ensures Settled(OneShot(s, cmd, None, now).row.status) <==> cmd.Fail? || !s.claimed || Settled(s.row.status)
    ensures OneShot(s, cmd, None, now).ended
  {
    hide MarkedRow, Settled;
    MarksThatSettle(s.row, now);
  }

  lemma MarksThatSettle(row: Row, now: Time)
    ensures Settled(MarkedRow(row, Failed, now).status) && Settled(MarkedRow(row, Cancelled, now).status)
    ensures Settled(MarkedRow(row, Status.Cancelling, now).status) <==> Settled(row.status)
  {
    match row.status {
      case Queued =>
      case Running =>
      case InputRequired =>
      case Cancelling =>
      case Completed =>
      case Cancelled =>
      case Failed =>
    }
  }
}

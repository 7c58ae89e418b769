/**
 Rounds whose writes may be lost: exactly when the row is settled once the stream has ended, and exactly when
 the thread gets its reply.
 */
module PipelineSettles {
  import opened Basics
  import opened Events
  import opened Statuses
  import opened PipelineSpec
  import opened PipelineRecords
  import opened PipelineRounds
  import opened PipelineStream
  import Reduce

  /** The command a turn takes, if the loop is still there and finds one. */
  function Takes(t: Round, turn: Turn): Option<Command> {
    var ready := Interfered(t, turn);
    if t.ended || ready.inQueue == [] then None else Some(ready.inQueue[0])
  }

  /** In some turn a claim was handled and its mark was written. */
  predicate ClaimWritten(s: Round, turns: seq<Turn>) {
    turns != []
    && (var before, last := turns[..|turns| - 1], turns[|turns| - 1];
        ClaimWritten(s, before) || (Takes(Run(s, before), last) == Some(Claim) && !Raises(last.fault, 0)))
  }

  /** In some turn before the end a sweep had failed the row. */
  predicate SweptFailed(s: Round, turns: seq<Turn>) {
    turns != []
    && (var before, last := turns[..|turns| - 1], turns[|turns| - 1];
        SweptFailed(s, before)
        || (!Run(s, before).ended && Interfered(Run(s, before), last).row.status == Failed))
  }

  /** How a round closed: the round when the closing command was taken, the command, and what was lost of it. */
  datatype Closer = Closer(at: Round, cmd: Command, fault: Fault) {
    /** The status its handler asks for. */
    function Wanted(): Status {
      if cmd.Fail? then Failed else Target(at)
    }

    /** The status write is a fail's second database call and a finish's first. */
    predicate MarkWritten() {
      !Raises(fault, if cmd.Fail? then 1 else 0)
    }

    predicate WantsReply() {
      cmd.FinishStream? && (Target(at) == Completed || Target(at) == InputRequired)
    }
  }

  function CloserOf(s: Round, turns: seq<Turn>): Closer
    requires !s.ended && Run(s, turns).ended
  {
    var before, last := turns[..|turns| - 1], turns[|turns| - 1];
    if Run(s, before).ended then CloserOf(s, before)
    else
      var ready := Interfered(Run(s, before), last);
      Closer(ready, if ready.inQueue == [] then Claim else ready.inQueue[0], last.fault)
  }

  // ------------------------------------------------------------------------------ the way there

  lemma SweptStaysOrFails(row: Row, sweeps: seq<Clause>, now: Time)
    ensures Swept(row, sweeps, now).status in {row.status, Failed}
  {
  }

  /** A command that does not close moves the row only by a claim or a cancel whose write succeeds. */
  lemma OpenHandlerRow(t: Round, cmd: Command, fault: Fault, now: Time)
    requires t.claimed && !Closes(cmd, true)
    ensures var status := Handled(t, cmd, fault, now).row.status;
      status == if cmd.Claim? && t.row.status == Queued && !Raises(fault, 0) then Running
                else if cmd.RequestCancel? && t.row.status == Running && !Raises(fault, 0) then Status.Cancelling
                else t.row.status
  {
    hide Handled, Target, Raises;
    HandlerStatus(t, cmd, fault, now);
  }

  predicate UnderWay(status: Status) {
    status == Running || status == Status.Cancelling
  }

  /** Until it ends, a round's row is failed if a sweep failed it, under way if a claim was written, else queued. */
  predicate RowSays(t: Round, claimed: bool, swept: bool) {
    if swept then t.row.status == Failed
    else if claimed then UnderWay(t.row.status) else t.row.status == Queued
  }

  lemma TurnSays(t: Round, turn: Turn, claimed: bool, swept: bool)
    requires t.claimed && !t.ended && RowSays(t, claimed, swept)
    ensures var ready := Interfered(t, turn);
      RowSays(ready, claimed, swept || ready.row.status == Failed)
    ensures var u := AfterTurn(t, turn);
      && u.claimed
      && (!u.ended ==> RowSays(u, claimed || (Takes(t, turn) == Some(Claim) && !Raises(turn.fault, 0)),
                               swept || Interfered(t, turn).row.status == Failed))
  {
    hide Handled;
    SweptStaysOrFails(t.row, turn.sweeps, turn.now);
    var ready := Interfered(t, turn);
    if ready.inQueue != [] {
      var cmd, rest := ready.inQueue[0], ready.(inQueue := ready.inQueue[1..]);
      HandlerEmits(rest, cmd, turn.fault, turn.now);
      if !Closes(cmd, true) {
        OpenHandlerRow(rest, cmd, turn.fault, turn.now);
      }
    }
  }

  lemma {:induction false} RowOnTheWay(s: Round, turns: seq<Turn>)
    requires s.claimed && !s.ended && s.row.status == Queued
    ensures Run(s, turns).claimed
    ensures !Run(s, turns).ended ==> RowSays(Run(s, turns), ClaimWritten(s, turns), SweptFailed(s, turns))
  {
    hide AfterTurn, RowSays, Takes, Interfered;
    if turns != [] {
      var before, last := turns[..|turns| - 1], turns[|turns| - 1];
      RowOnTheWay(s, before);
      if Run(s, before).ended {
        EndedStays(Run(s, before), last);
      } else {
        TurnSays(Run(s, before), last, ClaimWritten(s, before), SweptFailed(s, before));
      }
    } else {
      StartSays(s);
    }
  }

  lemma EndedStays(t: Round, turn: Turn)
    requires t.ended
    ensures AfterTurn(t, turn) == t && Takes(t, turn).None?
  {
  }

  lemma StartSays(s: Round)
    requires s.row.status == Queued
    ensures RowSays(s, false, false)
  {
  }

  // ------------------------------------------------------------------------------------ the end

  predicate Applies(closer: Closer, claimed: bool) {
    closer.MarkWritten() && (claimed || closer.Wanted() == Cancelled || closer.Wanted() == Failed)
  }

  /** The row a closing command leaves. */
  lemma ClosingRow(rest: Round, closer: Closer, now: Time, claimed: bool, swept: bool)
    requires closer.cmd.FinishStream? || closer.cmd.Fail?
    requires rest == closer.at.(inQueue := rest.inQueue) && RowSays(closer.at, claimed, swept)
    ensures Handled(rest, closer.cmd, closer.fault, now).row.status
         == if swept then Failed else if Applies(closer, claimed) then closer.Wanted() else closer.at.row.status
  {
    hide Replied, Target, Relaying;
    assert Target(rest) == Target(closer.at) by { SameTarget(closer.at, rest); }
    TargetsAre(closer.at);
  }

  /** What the closing turn of a round does, and that nothing follows it. */
  lemma {:induction false} ClosingTurn(s: Round, turns: seq<Turn>) returns (rest: Round, now: Time)
    requires s.claimed && !s.ended && s.row.status == Queued && Run(s, turns).ended
    ensures var closer := CloserOf(s, turns);
      && (closer.cmd.FinishStream? || closer.cmd.Fail?)
      && rest == closer.at.(inQueue := rest.inQueue)
      && Run(s, turns) == Ended(Handled(rest, closer.cmd, closer.fault, now))
      && RowSays(closer.at, ClaimWritten(s, turns), SweptFailed(s, turns))
  {
    hide AfterTurn, RowSays, Handled, Interfered, Takes;
    assert turns != [] by { RunNothing(s); }
    var before, last := turns[..|turns| - 1], turns[|turns| - 1];
    RowOnTheWay(s, before);
    if Run(s, before).ended {
      EndedStays(Run(s, before), last);
      rest, now := ClosingTurn(s, before);
    } else {
      TurnSays(Run(s, before), last, ClaimWritten(s, before), SweptFailed(s, before));
      rest, now := OneClosingTurn(Run(s, before), last);
    }
  }

  lemma OneClosingTurn(t: Round, turn: Turn) returns (rest: Round, now: Time)
    requires t.claimed && !t.ended && AfterTurn(t, turn).ended
    ensures var ready := Interfered(t, turn);
      && ready.inQueue != [] && Takes(t, turn) == Some(ready.inQueue[0])
      && (ready.inQueue[0].FinishStream? || ready.inQueue[0].Fail?)
      && rest == ready.(inQueue := rest.inQueue)
      && AfterTurn(t, turn) == Ended(Handled(rest, ready.inQueue[0], turn.fault, now))
  {
    hide Handled, Swept;
    var ready := Interfered(t, turn);
    rest, now := ready.(inQueue := if ready.inQueue == [] then [] else ready.inQueue[1..]), turn.now;
    if ready.inQueue != [] {
      HandlerEmits(rest, ready.inQueue[0], turn.fault, turn.now);
    }
  }

  /** The exact status a round leaves, whatever was lost: failed if a sweep failed it, what its close asked for if
      that was written and allowed, and otherwise the status the close found. */
  lemma StatusAtTheEnd(s: Round, turns: seq<Turn>)
    requires s.claimed && !s.ended && s.row.status == Queued && Run(s, turns).ended
    ensures var closer, claimed := CloserOf(s, turns), ClaimWritten(s, turns);
      && Run(s, turns).row.status == (if SweptFailed(s, turns) then Failed
                                      else if Applies(closer, claimed) then closer.Wanted() else closer.at.row.status)
      && (!SweptFailed(s, turns) ==>
            if claimed then UnderWay(closer.at.row.status) else closer.at.row.status == Queued)
  {
    hide Run, Handled, ClaimWritten, SweptFailed, Applies, UnderWay;
    var rest, now := ClosingTurn(s, turns);
    ClosingRow(rest, CloserOf(s, turns), now, ClaimWritten(s, turns), SweptFailed(s, turns));
  }

  /** Once the stream has ended the row is settled if and only if a sweep failed it, or the closing command's
      status was written and either some claim's was too or that status is cancelled or failed. */
  lemma SettledIffWritten(s: Round, turns: seq<Turn>)
    requires s.claimed && !s.ended && s.row.status == Queued && Run(s, turns).ended
    ensures var closer := CloserOf(s, turns);
      Settled(Run(s, turns).row.status)
      <==> SweptFailed(s, turns)
           || (closer.MarkWritten()
               && (ClaimWritten(s, turns) || closer.Wanted() == Cancelled || closer.Wanted() == Failed))
  {
    hide Run, ClaimWritten, SweptFailed, CloserOf, Target;
    StatusAtTheEnd(s, turns);
    TargetsAre(CloserOf(s, turns).at);
  }

  /** If no claim was ever written and no sweep came, a round that finished well leaves its row queued, though its
      subscriber has been told that the stream is over. */
  lemma LostClaimsStayQueued(s: Round, turns: seq<Turn>)
    requires Begins(s) && s.claimed && s.row.status == Queued && Run(s, turns).ended
    requires !ClaimWritten(s, turns) && !SweptFailed(s, turns) && CloserOf(s, turns).WantsReply()
    ensures Run(s, turns).row.status == Queued && Run(s, turns).replies == s.replies
    ensures Run(s, turns).out != [] && Run(s, turns).out[|Run(s, turns).out| - 1].EndOfStream?
  {
    StatusAtTheEnd(s, turns);
    ReplyIffWritten(s, turns);
    StreamedWasStoredFirst(s, turns);
    hide Run, ClaimWritten, SweptFailed, CloserOf, Target;
  }

  // ----------------------------------------------------------------- after the close, before the end

  /** The row once other writers have written, between the close's status write and the end of the stream. */
  function RowAfter(row: Row, late: seq<Statuses.Moment>): Row {
    if late == [] then row
    else
      var before, last := RowAfter(row, late[..|late| - 1]), late[|late| - 1];
      Written(before, last.write, last.at)
  }

  /** Sweeps, replies, resumes and touches: everything but what the run's own handlers and its first door write. */
  predicate OthersOnly(late: seq<Statuses.Moment>) {
    forall m :: m in late ==> m.write.Reopen? || m.write.FailIf? || m.write.Touch?
  }

  /** One of the reopens finds the row in the status it expects, or expects none. */
  predicate ReopenWins(row: Row, late: seq<Statuses.Moment>) {
    late != []
    && (var before, last := late[..|late| - 1], late[|late| - 1].write;
        ReopenWins(row, before)
        || (last.Reopen? && (last.expected.None? || last.expected.value == RowAfter(row, before).status)))
  }

  /** Other writers leave a row settled if and only if they fail it, or it was settled and no reopen of it won. */
  lemma {:induction false} SettledUnlessReopened(row: Row, late: seq<Statuses.Moment>)
    requires OthersOnly(late)
    ensures var after := RowAfter(row, late).status;
      && (Settled(after) <==> after == Failed || (Settled(row.status) && !ReopenWins(row, late)))
      && (if ReopenWins(row, late) then after in {Queued, Failed} else after in {row.status, Failed})
  {
    if late != [] {
      assert late[|late| - 1] in late;
      SettledUnlessReopened(row, late[..|late| - 1]);
    }
  }

  /** The row at the end of the stream, other writers having come between: settled if and only if they failed it, or
      the close left it settled and no reopen, as of a reply to a question just asked, won since. */
  lemma SettledAtTheEndIff(s: Round, turns: seq<Turn>, late: seq<Statuses.Moment>)
    requires s.claimed && !s.ended && s.row.status == Queued && Run(s, turns).ended && OthersOnly(late)
    ensures var closer, row := CloserOf(s, turns), Run(s, turns).row;
      Settled(RowAfter(row, late).status)
      <==> RowAfter(row, late).status == Failed
           || (&& !ReopenWins(row, late)
               && (SweptFailed(s, turns)
                   || (closer.MarkWritten()
                       && (ClaimWritten(s, turns) || closer.Wanted() == Cancelled || closer.Wanted() == Failed))))
  {
    hide Run, ClaimWritten, SweptFailed, CloserOf, Target;
    SettledIffWritten(s, turns);
    SettledUnlessReopened(Run(s, turns).row, late);
  }

  // ---------------------------------------------------------------------------------- the reply

  lemma {:induction false} NoReplyOnTheWay(s: Round, turns: seq<Turn>)
    requires !s.ended
    ensures Run(s, turns).startingSeq == s.startingSeq
    ensures !Run(s, turns).ended ==> Run(s, turns).replies == s.replies
  {
    hide Handled;
    if turns != [] {
      var before, last := turns[..|turns| - 1], turns[|turns| - 1];
      NoReplyOnTheWay(s, before);
      var t := Run(s, before);
      if !t.ended {
        var ready := Interfered(t, last);
        if ready.inQueue != [] {
          var rest, cmd := ready.(inQueue := ready.inQueue[1..]), ready.inQueue[0];
          KeepsReplies(rest, cmd, last.fault, last.now);
          HandlerEmits(rest, cmd, last.fault, last.now);
        }
      }
    }
  }

  lemma {:induction false} CloserKeepsReplies(s: Round, turns: seq<Turn>)
    requires !s.ended && Run(s, turns).ended
    ensures CloserOf(s, turns).at.replies == s.replies && CloserOf(s, turns).at.startingSeq == s.startingSeq
  {
    hide AfterTurn;
    assert turns != [] by { RunNothing(s); }
    var before, last := turns[..|turns| - 1], turns[|turns| - 1];
    NoReplyOnTheWay(s, before);
    if Run(s, before).ended {
      EndedStays(Run(s, before), last);
      CloserKeepsReplies(s, before);
    }
  }

  /** A closing command hands over what the log holds, if it wants to, may, and loses neither reply nor commit. */
  lemma ClosingReply(rest: Round, closer: Closer, now: Time, claimed: bool, swept: bool)
    requires closer.cmd.FinishStream? || closer.cmd.Fail?
    requires rest == closer.at.(inQueue := rest.inQueue) && RowSays(closer.at, claimed, swept)
    ensures var u := Handled(rest, closer.cmd, closer.fault, now);
      u.replies == closer.at.replies + if closer.WantsReply() && claimed && !swept && !Raises(closer.fault, 2)
                                       then HandedOver(Reduce.Messages(EventsSince(u.log, rest.startingSeq))) else []
  {
    hide Reduce.Messages, EventsSince, Target, Relaying;
    SameTarget(closer.at, rest);
    if closer.cmd.FinishStream? && closer.WantsReply() {
      assert OwesReply(rest) <==> claimed && !swept;
      assert !OwesError(rest);
    }
  }

  /** The thread gets the round's reply, the reduction of what the round stored, if and only if the round closed
      with a finish that completes or pauses it, a claim had been written, no sweep had failed the row, and none of
      the finish's calls was lost; in every other case it gets nothing. */
  lemma ReplyIffWritten(s: Round, turns: seq<Turn>)
    requires Begins(s) && s.claimed && s.row.status == Queued && Run(s, turns).ended
    ensures var t, closer := Run(s, turns), CloserOf(s, turns);
      t.replies == s.replies
        + if closer.WantsReply() && ClaimWritten(s, turns) && !SweptFailed(s, turns) && !Raises(closer.fault, 2)
          then HandedOver(Reduce.Messages(EventsOf(NewEntries(s, t)))) else []
  {
    RoundReadsItself(s, turns);
    hide Run, Handled, ClaimWritten, SweptFailed, CloserOf, RowSays, Reduce.Messages, EventsSince, EventsOf;
    var rest, now := ClosingTurn(s, turns);
    CloserKeepsReplies(s, turns);
    ClosingReply(rest, CloserOf(s, turns), now, ClaimWritten(s, turns), SweptFailed(s, turns));
  }

  /** A finish whose status was written but whose reply or last commit was lost: the row says completed, or asks
      its question, and the thread never gets the answer. */
  lemma LostCommitLosesTheReply(s: Round, turns: seq<Turn>)
    requires Begins(s) && s.claimed && s.row.status == Queued && Run(s, turns).ended
    requires ClaimWritten(s, turns) && !SweptFailed(s, turns)
    requires CloserOf(s, turns).WantsReply() && CloserOf(s, turns).fault in {Some(1), Some(2)}
    ensures Run(s, turns).row.status == Target(CloserOf(s, turns).at) && Run(s, turns).replies == s.replies
  {
    StatusAtTheEnd(s, turns);
    ReplyIffWritten(s, turns);
    hide Run, ClaimWritten, SweptFailed, CloserOf, Target;
  }
}

/** The subscriber and the log: what one round stores, what it streams, and how rounds share a log. */
module PipelineStream {
  import opened Basics
  import opened Events
  import opened Statuses
  import opened PipelineSpec
  import Reduce

  /** What a clean round keeps between its log and its stream. */
  predicate Mirrors(s: Round, t: Round) {
    && s.log <= t.log && t.startingSeq == s.startingSeq
    && t.seqNo == s.seqNo + |NewEntries(s, t)|
    && (forall i :: |s.log| <= i < |t.log| ==> t.log[i].seqNo == s.seqNo + 1 + i - |s.log|)
    && t.out == AsItems(EventsOf(NewEntries(s, t))) + if t.ended then [EndOfStream] else []
  }

  /** One more event, stored under the next seq and streamed. */
  lemma StoredAndStreamed(s: Round, t: Round, u: Round, event: Event)
    requires Mirrors(s, t) && !t.ended && !u.ended && u.startingSeq == t.startingSeq
    requires u.seqNo == t.seqNo + 1 && u.log == t.log + [Entry(u.seqNo, event)] && u.out == t.out + [Streamed(event)]
    ensures Mirrors(s, u)
  {
    assert NewEntries(s, u) == NewEntries(s, t) + [Entry(u.seqNo, event)];
    assert EventsOf(NewEntries(s, u)) == EventsOf(NewEntries(s, t)) + [event];
    assert AsItems(EventsOf(NewEntries(s, u))) == AsItems(EventsOf(NewEntries(s, t))) + [Streamed(event)];
  }

  lemma HandledMirrors(s: Round, t: Round, cmd: Command, now: Time)
    requires Mirrors(s, t) && !t.ended
    ensures Mirrors(s, Handled(t, cmd, None, now)) && !Handled(t, cmd, None, now).ended
  {
    HandlerEmits(t, cmd, None, now);
    hide Handled, EventsOf, AsItems;
    if Emitted(t, cmd).Some? {
      StoredAndStreamed(s, t, Handled(t, cmd, None, now), Emitted(t, cmd).value);
    }
  }

  lemma AfterMirrors(s: Round, t: Round, turn: Turn)
    requires Mirrors(s, t) && turn.fault.None?
    ensures Mirrors(s, AfterTurn(t, turn))
  {
    if !t.ended {
      var ready := Interfered(t, turn);
      if ready.inQueue != [] {
        var taken := ready.(inQueue := ready.inQueue[1..]);
        HandledMirrors(s, taken, ready.inQueue[0], turn.now);
        hide Handled;
      }
    }
  }

  /** Whatever arrives and however it is interleaved, the subscriber gets exactly the events this round
      stored, in order, then one END once the round is over; their seqs follow on without a gap. */
  lemma {:induction false} SubscriberGetsTheRound(s: Round, turns: seq<Turn>)
    requires Begins(s) && Clean(turns)
    ensures Mirrors(s, Run(s, turns))
  {
    if turns != [] {
      var before, last := turns[..|turns| - 1], turns[|turns| - 1];
      assert last in turns;
      SubscriberGetsTheRound(s, before);
      AfterMirrors(s, Run(s, before), last);
      hide AfterTurn;
    }
  }

  // ----------------------------------------------------------------------- with database failures

  /** `part` is `whole` with some events left out. */
  predicate LeavesOut(part: seq<Event>, whole: seq<Event>) {
    if part == [] then true
    else if whole == [] then false
    else if part[|part| - 1] == whole[|whole| - 1] && LeavesOut(part[..|part| - 1], whole[..|whole| - 1]) then true
    else LeavesOut(part, whole[..|whole| - 1])
  }

  lemma LeavesOutOneMore(part: seq<Event>, whole: seq<Event>, event: Event)
    requires LeavesOut(part, whole)
    ensures LeavesOut(part, whole + [event]) && LeavesOut(part + [event], whole + [event])
  {
    assert (whole + [event])[..|whole|] == whole && (part + [event])[..|part|] == part;
  }

  function Sendings(out: seq<Item>): seq<Event> {
    if out == [] then []
    else
      var last := out[|out| - 1];
      Sendings(out[..|out| - 1]) + if last.Streamed? then [last.event] else []
  }

  /** New entries carry growing seqs, all above the round's start. */
  predicate SeqsGrow(s: Round, t: Round) {
    && s.log <= t.log && Increasing(t.log) && s.seqNo <= t.seqNo
    && (forall i :: |s.log| <= i < |t.log| ==> s.seqNo < t.log[i].seqNo)
    && (forall i :: 0 <= i < |t.log| ==> t.log[i].seqNo <= t.seqNo)
  }

  predicate EndsOnce(t: Round) {
    && (forall i :: 0 <= i < |t.out| && t.out[i].EndOfStream? ==> t.ended && i == |t.out| - 1)
    && (t.ended ==> t.out != [] && t.out[|t.out| - 1].EndOfStream?)
  }

  /** Between a log and a stream when any database call may have failed. */
  predicate StoredFirst(s: Round, t: Round) {
    && t.startingSeq == s.startingSeq && SeqsGrow(s, t) && EndsOnce(t)
    && LeavesOut(Sendings(t.out), EventsOf(NewEntries(s, t)))
  }

  lemma MaybeStoredSeqs(s: Round, t: Round, u: Round, event: Event)
    requires SeqsGrow(s, t) && u.seqNo == t.seqNo + 1 && EmitsPartly(t, u, event)
    ensures SeqsGrow(s, u)
  {
  }

  lemma MaybeStored(s: Round, t: Round, u: Round, event: Event)
    requires s.log <= t.log && EmitsPartly(t, u, event)
    requires LeavesOut(Sendings(t.out), EventsOf(NewEntries(s, t)))
    ensures LeavesOut(Sendings(u.out), EventsOf(NewEntries(s, u)))
  {
    SendingsGrow(t.out, event);
    var stored := EventsOf(NewEntries(s, t));
    if u.log != t.log {
      assert NewEntries(s, u) == NewEntries(s, t) + [Entry(u.seqNo, event)];
      assert EventsOf(NewEntries(s, u)) == stored + [event];
      LeavesOutOneMore(Sendings(t.out), stored, event);
    }
    hide LeavesOut, Sendings;
  }

  lemma SendingsGrow(out: seq<Item>, event: Event)
    ensures Sendings(out + [Streamed(event)]) == Sendings(out) + [event]
    ensures Sendings(out + [EndOfStream]) == Sendings(out)
  {
    assert (out + [Streamed(event)])[..|out|] == out && (out + [EndOfStream])[..|out|] == out;
  }

  lemma HandledStoresFirst(s: Round, t: Round, cmd: Command, fault: Fault, now: Time)
    requires StoredFirst(s, t) && !t.ended
    ensures StoredFirst(s, Handled(t, cmd, fault, now)) && !Handled(t, cmd, fault, now).ended
  {
    HandlerEmits(t, cmd, fault, now);
    hide Handled, EventsOf, LeavesOut, Sendings, Increasing;
    var u := Handled(t, cmd, fault, now);
    if u.seqNo != t.seqNo {
      MaybeStoredSeqs(s, t, u, Emitted(t, cmd).value);
      MaybeStored(s, t, u, Emitted(t, cmd).value);
    }
    hide NewEntries, Emitted;
  }

  lemma EndedStoresFirst(s: Round, t: Round)
    requires StoredFirst(s, t) && !t.ended
    ensures StoredFirst(s, Ended(t))
  {
    SendingsGrow(t.out, RunStarted);
  }

  lemma AfterStoresFirst(s: Round, t: Round, turn: Turn)
    requires StoredFirst(s, t)
    ensures StoredFirst(s, AfterTurn(t, turn))
  {
    hide Handled, StoredFirst, Swept, Ended, Closes;
    if !t.ended {
      var ready := Interfered(t, turn);
      QueueStoresNothing(s, t, ready);
      if ready.inQueue != [] {
        var taken := ready.(inQueue := ready.inQueue[1..]);
        QueueStoresNothing(s, t, taken);
        HandledStoresFirst(s, taken, ready.inQueue[0], turn.fault, turn.now);
        if Closes(ready.inQueue[0], ready.claimed) {
          EndedStoresFirst(s, Handled(taken, ready.inQueue[0], turn.fault, turn.now));
        }
      }
    }
  }

  /** What is queued, the flag and the row play no part. */
  lemma QueueStoresNothing(s: Round, t: Round, u: Round)
    requires StoredFirst(s, t) && u == t.(inQueue := u.inQueue, cancelRequested := u.cancelRequested, row := u.row)
    ensures StoredFirst(s, u)
  {
    hide LeavesOut, Sendings, EventsOf, Increasing;
  }

  /** Even when database calls fail, every streamed event was stored first, in the same order, seqs only
      grow, and the stream's END comes once, last, and exactly when the round is over. */
  lemma {:induction false} StreamedWasStoredFirst(s: Round, turns: seq<Turn>)
    requires Begins(s)
    ensures StoredFirst(s, Run(s, turns))
  {
    if turns != [] {
      var before, last := turns[..|turns| - 1], turns[|turns| - 1];
      StreamedWasStoredFirst(s, before);
      AfterStoresFirst(s, Run(s, before), last);
      hide AfterTurn;
    } else {
      assert EventsOf(NewEntries(s, s)) == [];
    }
  }
}

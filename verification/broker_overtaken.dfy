/** How long a run keeps its one pipeline, over whole executions. */
module BrokerOvertaken {
  import opened Basics
  import opened Events
  import opened BrokerSpec
  import opened BrokerSound
  import opened BrokerStranded
  import opened BrokerOwnership

  /** Up to a run's end its tasks only become more, its end is for good, and it stays the run it was made as; whether a
      cancel has been requested of it changes if the step is one. */
  predicate NotFreed(s: State, t: State, h: nat, cancelled: bool) {
    && h < |s.made| <= |t.made|
    && t.made[h].id == s.made[h].id && t.made[h].agent == s.made[h].agent && t.made[h].queuedAt == s.made[h].queuedAt
    && t.made[h].cancelRequested == (s.made[h].cancelRequested || cancelled)
    && (s.made[h].ended ==> t.made[h].ended)
    && (!t.made[h].ended ==> && |t.made[h].pipelines| >= |s.made[h].pipelines|
                             && |t.made[h].finishers| >= |s.made[h].finishers|)
  }

  lemma StillCrowded(s: State, t: State, h: nat, cancelled: bool)
    requires Crowded(s, h) && NotFreed(s, t, h, cancelled)
    ensures Crowded(t, h)
  {
  }

  lemma SameMade(s: State, t: State, h: nat)
    requires h < |s.made| && t.made == s.made
    ensures NotFreed(s, t, h, false)
  {
  }

  lemma MadeWith(s: State, t: State, h: nat, k: nat, r: RunRecord)
    requires h < |s.made| && k < |s.made| && t.made == s.made[k := r]
    requires r.id == s.made[k].id && r.agent == s.made[k].agent && r.queuedAt == s.made[k].queuedAt
    requires r.cancelRequested == s.made[k].cancelRequested
    requires r.ended || (&& r.ended == s.made[k].ended && |r.pipelines| >= |s.made[k].pipelines|
                         && |r.finishers| >= |s.made[k].finishers|)
    ensures NotFreed(s, t, h, false)
  {
  }

  lemma AnswerFreesNone(c: Config, s: State, h: nat, answer: Answer, now: Time)
    requires WellFormed(s) && s.sweep.Offering? && h < |s.made|
    ensures NotFreed(s, AnswerOffer(c, s, answer, now), h, false)
  {
    hide NoteAbnormal, Unqueue, NotFreed;
    var agent, k, id := s.sweep.agent, s.sweep.run, s.made[s.sweep.run].id;
    var t := AnswerOffer(c, s, answer, now);
    match answer
    case Accepted =>
      UnqueueFrame(TakeOver(s, k, s.sweep.provider.key), agent, id);
      MadeWith(s, t, h, k, t.made[k]);
    case Refused(reason) =>
      UnqueueFrame(SpawnFinisher(s, k, Fail(reason)), agent, id);
      MadeWith(s, t, h, k, t.made[k]);
    case NoAnswer => SameMade(s, t, h);
    case Declined => SameMade(s, t, h);
  }

  lemma LateAckFreesNone(c: Config, s: State, h: nat, id: RunId, claimant: Key, now: Time)
    requires WellFormed(s) && h < |s.made|
    ensures NotFreed(s, AcceptLateAck(c, s, id, claimant, now), h, false)
  {
    hide NoteAbnormal, Unqueue, NotFreed;
    var t := AcceptLateAck(c, s, id, claimant, now);
    if LateAckAllowed(s, id, claimant) {
      UnqueueFrame(TakeOver(s, s.tracked[id], claimant), Named(s, id).agent, id);
      MadeWith(s, t, h, s.tracked[id], t.made[s.tracked[id]]);
    } else {
      SameMade(s, t, h);
    }
  }

  lemma PushFreesNone(c: Config, s: State, h: nat, id: RunId, cmd: Command, now: Time)
    requires WellFormed(s) && h < |s.made|
    ensures NotFreed(s, PushTo(c, s, id, cmd, now), h, false)
  {
    hide NoteAbnormal, NotFreed;
    var t := PushTo(c, s, id, cmd, now);
    if id in s.tracked {
      MadeWith(s, t, h, s.tracked[id], t.made[s.tracked[id]]);
    } else {
      SameMade(s, t, h);
    }
  }

  /** The step requests that this very run be cancelled. */
  predicate CancelsIt(s: State, step: Step, h: nat) {
    step.Cancel? && step.id in s.tracked && s.tracked[step.id] == h
  }

  lemma CancelFreesNone(s: State, h: nat, id: RunId)
    requires WellFormed(s) && h < |s.made|
    ensures NotFreed(s, CancelRun(s, id), h, CancelsIt(s, Cancel(id), h))
  {
  }

  lemma TakeFreesNone(c: Config, s: State, h: nat, k: nat, task: nat, now: Time)
    requires WellFormed(s) && h < |s.made| && CanTake(s, k, task)
    ensures NotFreed(s, TakeCommand(c, s, k, task, now), h, false)
  {
    hide PushTo, Drained, StartHandling, NotFreed;
    if Malformed(s.made[k].inQueue[0]) {
      DrainFreesNone(s, h, k);
      PushFreesNone(c, Drained(s, k), h, s.made[k].id, Fail(MALFORMED_REASON), now);
      NoneFreedTwice(s, Drained(s, k), TakeCommand(c, s, k, task, now), h);
    } else {
      HandlingFreesNone(s, h, k, task);
    }
  }

  lemma DrainFreesNone(s: State, h: nat, k: nat)
    requires WellFormed(s) && h < |s.made| && k < |s.made|
    ensures NotFreed(s, Drained(s, k), h, false) && |Drained(s, k).made| == |s.made|
  {
  }

  lemma HandlingFreesNone(s: State, h: nat, k: nat, task: nat)
    requires WellFormed(s) && h < |s.made| && CanTake(s, k, task)
    ensures NotFreed(s, StartHandling(s, k, task), h, false)
  {
  }

  lemma NoneFreedTwice(s: State, t: State, u: State, h: nat)
    requires NotFreed(s, t, h, false) && NotFreed(t, u, h, false)
    ensures NotFreed(s, u, h, false)
  {
  }

  lemma EndFreesNone(s: State, h: nat, k: nat, r: RunRecord)
    requires WellFormed(s) && h < |s.made| && k < |s.made|
    requires r.id == s.made[k].id && r.agent == s.made[k].agent && r.queuedAt == s.made[k].queuedAt
    requires r.cancelRequested == s.made[k].cancelRequested
    ensures NotFreed(s, End(WithRun(s, k, r), k), h, false)
  {
    hide End;
    EndEffect(WithRun(s, k, r), k);
  }

  lemma CompleteFreesNone(s: State, h: nat, k: nat, task: nat)
    requires WellFormed(s) && h < |s.made| && CanComplete(s, k, task)
    ensures NotFreed(s, CompleteCommand(s, k, task), h, false)
  {
    hide End, NotFreed, RemoveAt, WithRun;
    var r := s.made[k];
    EndFreesNone(s, h, k, r.(pipelines := RemoveAt(r.pipelines, task)));
    WaitingFreesNone(s, h, k, r.(pipelines := r.pipelines[task := Waiting]));
  }

  lemma WaitingFreesNone(s: State, h: nat, k: nat, r: RunRecord)
    requires WellFormed(s) && h < |s.made| && k < |s.made|
    requires r == s.made[k].(pipelines := r.pipelines) && |r.pipelines| == |s.made[k].pipelines|
    ensures NotFreed(s, WithRun(s, k, r), h, false)
  {
  }

  lemma ShotFreesNone(s: State, h: nat, k: nat, task: nat)
    requires WellFormed(s) && h < |s.made| && CanFinish(s, k, task)
    ensures NotFreed(s, FinishShot(s, k, task), h, false)
  {
    hide End, NotFreed;
    EndFreesNone(s, h, k, s.made[k].(finishers := RemoveAt(s.made[k].finishers, task)));
  }

  lemma WakeFreesNone(c: Config, s: State, h: nat, order: seq<AgentRef>, now: Time)
    requires WellFormed(s) && h < |s.made|
    ensures NotFreed(s, WakeUp(c, s, order, now), h, false)
  {
    hide ExpireAgents;
    ExpireAgentsIsExpiry(s, order, now - c.unservedTimeout);
    assert Finished(s.made[h], ExpireAgents(s, order, now - c.unservedTimeout).made[h]);
  }

  lemma EnqueueFreesNone(s: State, h: nat, id: RunId, agent: AgentRef, withHandlers: bool, now: Time)
    requires WellFormed(s) && h < |s.made|
    ensures NotFreed(s, EnqueueRun(s, id, agent, withHandlers, now), h, false)
  {
  }

  lemma NothingFreed(c: Config, s: State, h: nat, step: Step, now: Time)
    requires WellFormed(s) && h < |s.made| && Enabled(s, step)
    ensures NotFreed(s, Next(c, s, step, now), h, CancelsIt(s, step, h))
  {
    hide WakeUp, ScanNext, AnswerOffer, PushTo, AcceptLateAck, TakeCommand, CompleteCommand, FinishShot,
      EnqueueRun, CancelRun;
    hide NotFreed;
    var t := Next(c, s, step, now);
    match step {
      case Enqueue(id, agent, withHandlers) => EnqueueFreesNone(s, h, id, agent, withHandlers, now);
      case Wake(order) => WakeFreesNone(c, s, h, order, now);
      case Answered(answer) => AnswerFreesNone(c, s, h, answer, now);
      case Push(id, cmd) => PushFreesNone(c, s, h, id, cmd, now);
      case Cancel(id) => CancelFreesNone(s, h, id);
      case LateAck(id, claimant) => LateAckFreesNone(c, s, h, id, claimant, now);
      case Take(k, task) => TakeFreesNone(c, s, h, k, task, now);
      case Complete(k, task) => CompleteFreesNone(s, h, k, task);
      case FinishOneShot(k, task) => ShotFreesNone(s, h, k, task);
      case Scan => ScanFreesNone(s, h);
      case _ => SameMade(s, t, h);
    }
  }

  /** A run that several tasks act for is never left to one of them. */
  lemma CrowdedStays(c: Config, s: State, h: nat, step: Step, now: Time)
    requires WellFormed(s) && Crowded(s, h) && Enabled(s, step)
    ensures Crowded(Next(c, s, step, now), h)
  {
    hide Next, NotFreed, Enabled;
    NothingFreed(c, s, h, step, now);
    StillCrowded(s, Next(c, s, step, now), h, CancelsIt(s, step, h));
  }

  lemma ScanFreesNone(s: State, h: nat)
    requires WellFormed(s) && s.sweep.Scanning? && h < |s.made|
    ensures NotFreed(s, ScanNext(s), h, false)
  {
    hide ScannedQueues, ScannedSweep;
  }

  // -------------------------------------------------------------------------- over whole executions

  /** By the `k`th moment the run's own pipeline ends it, or an offer of it is accepted or refused. */
  predicate Ends(states: seq<State>, moments: seq<Moment>, h: nat, k: nat)
    requires |states| == |moments| + 1 && k < |moments|
  {
    EndsItself(states[k], h, moments[k].step) || Overtaken(states[k], h, moments[k].step)
  }

  predicate NeverOvertaken(states: seq<State>, moments: seq<Moment>, h: nat, i: nat, n: nat)
    requires |states| == |moments| + 1 && n <= |moments|
  {
    forall k :: i <= k < n ==> !Overtaken(states[k], h, moments[k].step)
  }

  predicate NeverEnds(states: seq<State>, moments: seq<Moment>, h: nat, i: nat, n: nat)
    requires |states| == |moments| + 1 && n <= |moments|
  {
    forall k :: i <= k < n ==> !Ends(states, moments, h, k)
  }

  lemma {:induction false} CrowdedForGood(c: Config, states: seq<State>, moments: seq<Moment>, i: nat, n: nat, h: nat)
    requires Execution(c, states, moments) && i <= n < |states| && Crowded(states[i], h)
    ensures Crowded(states[n], h)
  {
    hide Next, Enabled, Crowded;
    if i < n {
      CrowdedForGood(c, states, moments, i, n - 1, h);
      assert Happens(c, states[n - 1], moments[n - 1], states[n - 1 + 1]);
      CrowdedStays(c, states[n - 1], h, moments[n - 1].step, moments[n - 1].at);
    }
  }

  lemma CrowdedIsNotOwned(s: State, h: nat)
    requires Crowded(s, h)
    ensures !SolelyOwned(s, h)
  {
  }

  /** Over every execution in which enqueued ids are uncontested, a run once solely owned is so at a later moment if
      and only if by then its own pipeline has not ended it and no offer of it has been accepted or refused. */
  lemma {:induction false} OwnedIffNeitherEndedNorOvertaken(c: Config, states: seq<State>, moments: seq<Moment>,
                                                            i: nat, n: nat, h: nat)
    requires UncontestedExecution(c, states, moments) && i <= n < |states| && SolelyOwned(states[i], h)
    ensures SolelyOwned(states[n], h) <==> NeverEnds(states, moments, h, i, n)
    ensures !SolelyOwned(states[n], h) ==> Crowded(states[n], h)
    ensures NeverOvertaken(states, moments, h, i, n) && !SolelyOwned(states[n], h) ==> Retired(states[n], h)
  {
    hide Next, Enabled, SolelyOwned, Retired, Fit, EndsItself, Overtaken, Crowded;
    if i < n {
      OwnedIffNeitherEndedNorOvertaken(c, states, moments, i, n - 1, h);
      AlwaysFit(c, states, moments, n - 1);
      var s, m := states[n - 1], moments[n - 1];
      assert Happens(c, s, m, states[n - 1 + 1]) && UncontestedStep(s, m.step);
      if SolelyOwned(s, h) {
        OwnershipLasts(c, s, h, m.step, m.at);
        assert NeverEnds(states, moments, h, i, n) <==> !Ends(states, moments, h, n - 1);
      } else {
        CrowdedStays(c, s, h, m.step, m.at);
        CrowdedIsNotOwned(states[n], h);
        if NeverOvertaken(states, moments, h, i, n) {
          assert !Overtaken(s, h, m.step);
          RetiredStays(c, s, h, m.step, m.at);
        }
      }
    }
  }
}

/**
 No run is stranded: a tracked run is always in its own agent's queue, or claimed with a live
 pipeline, or about to be ended by a one-shot finisher, and it stops being tracked exactly when
 END_OF_STREAM is on its out_queue. This needs enqueued ids to be uncontested.
 */
module BrokerStranded {
  import opened Basics
  import opened Events
  import opened BrokerSpec
  import opened BrokerSound

  predicate IsTracked(s: State, h: nat) {
    h < |s.made| && s.made[h].id in s.tracked && s.tracked[s.made[h].id] == h
  }

  predicate Finishing(r: RunRecord) {
    r.finishers != [] || (r.claimedBy.Some? && r.pipelines != [])
  }

  /** The property of one run object. */
  predicate Unstranded(s: State, h: nat)
    requires h < |s.made|
  {
    var r := s.made[h];
    if IsTracked(s, h) then !r.ended && (Finishing(r) || r.id in Queue(s, r.agent)) else r.ended
  }

  /** A pipeline reading these commands comes to one that ends the run before a malformed event drains them. */
  predicate WillEnd(cmds: seq<Command>, claimed: bool) {
    cmds != [] && !Malformed(cmds[0]) && (Closes(cmds[0], claimed) || WillEnd(cmds[1..], claimed))
  }

  /** No task of this object is going to forget its id: no one-shot, no pipeline in a closing handler, and
      none that will read a closing command. */
  predicate Harmless(r: RunRecord) {
    && r.finishers == []
    && (forall p :: p in r.pipelines && p.Handling? ==> !Closing(r, p.cmd))
    && (r.pipelines != [] ==> !WillEnd(r.inQueue, r.claimedBy.Some?))
  }

  predicate OnOffer(s: State, h: nat) {
    s.sweep.Offering? && s.sweep.run == h
  }

  /** Something still acts under `id`: it is tracked, on offer, or an older run object of it can still forget it. */
  ghost predicate Contested(s: State, id: RunId) {
    || id in s.tracked
    || exists h: nat :: h < |s.made| && s.made[h].id == id && (OnOffer(s, h) || !Harmless(s.made[h]))
  }

  ghost predicate UncontestedStep(s: State, step: Step) {
    step.Enqueue? ==> step.withHandlers && !Contested(s, step.id)
  }

  predicate RunFit(s: State, h: nat)
    requires h < |s.made|
  {
    var r := s.made[h];
    && Unstranded(s, h)
    && (if IsTracked(s, h) then
          r.id in s.handlers && (r.claimedBy.Some? ==> r.pipelines != []) && (r.cancelRequested ==> Finishing(r))
        else r.id in s.tracked ==> Harmless(r) && !OnOffer(s, h))
  }

  ghost predicate Fit(s: State) {
    WellFormed(s) && forall h :: 0 <= h < |s.made| ==> RunFit(s, h)
  }

  /** Changing one run's flags, commands and tasks, leaving it as finished as it was. */
  lemma FitWithRun(s: State, h: nat, r: RunRecord)
    requires Fit(s) && h < |s.made| && r.id == s.made[h].id && r.agent == s.made[h].agent
    requires r.ended == s.made[h].ended
    requires Finishing(s.made[h]) ==> Finishing(r)
    requires IsTracked(s, h) && r.claimedBy.Some? ==> r.pipelines != []
    requires r.cancelRequested ==> s.made[h].cancelRequested || Finishing(r)
    requires Harmless(r) || IsTracked(s, h) || r.id !in s.tracked
    ensures Fit(WithRun(s, h, r))
  {
    hide Harmless;
    var t := WithRun(s, h, r);
    forall k | 0 <= k < |t.made| ensures RunFit(t, k) {
      assert RunFit(s, k);
    }
  }

  lemma RunIsFit(s: State, h: nat)
    requires Fit(s) && h < |s.made|
    ensures RunFit(s, h)
  {
  }

  lemma FitIsWellFormed(s: State)
    requires Fit(s)
    ensures WellFormed(s)
  {
  }

  /** An object about to end its id, or on offer, is the one the id leads to, if the id is tracked at all. */
  lemma EnderIsTracked(s: State, h: nat)
    requires Fit(s) && h < |s.made|
    requires !Harmless(s.made[h]) || OnOffer(s, h)
    ensures IsTracked(s, h) || s.made[h].id !in s.tracked
  {
    assert RunFit(s, h);
  }

  lemma FitEnd(s: State, h: nat, r: RunRecord)
    requires Fit(s) && h < |s.made| && r.id == s.made[h].id && r.agent == s.made[h].agent
    requires IsTracked(s, h) || r.id !in s.tracked
    ensures Fit(End(WithRun(s, h, r), h))
  {
    hide End;
    EndEffect(WithRun(s, h, r), h);
    var t := End(WithRun(s, h, r), h);
    forall k | 0 <= k < |t.made| ensures RunFit(t, k) {
      assert RunFit(s, k);
    }
  }

  lemma FitUnqueue(s: State, agent: AgentRef, id: RunId)
    requires Fit(s)
    requires id in s.tracked ==> Finishing(Named(s, id))
    ensures Fit(Unqueue(s, agent, id))
  {
    hide RemoveFirst, Harmless;
    var t := Unqueue(s, agent, id);
    RemoveFirstMembers(Queue(s, agent), id);
    forall k | 0 <= k < |t.made| ensures RunFit(t, k) {
      assert RunFit(s, k);
    }
  }

  lemma FitTakeOver(s: State, h: nat, key: Key)
    requires Fit(s) && h < |s.made|
    requires IsTracked(s, h) || s.made[h].id !in s.tracked
    ensures Fit(TakeOver(s, h, key))
    ensures s.made[h].id in s.tracked ==> Finishing(Named(TakeOver(s, h, key), s.made[h].id))
  {
    hide Harmless, WillEnd, Queue, Fit;
    FitIsWellFormed(s);
    var u := AddInFlight(s, key);
    RunIsFit(s, h);
    FitElsewhere(s, u);
    var r := s.made[h];
    var started := if r.id in s.handlers then r.pipelines + [Waiting] else r.pipelines;
    FitWithRun(u, h, r.(claimedBy := Some(key), pipelines := started, inQueue := r.inQueue + [Claim]));
  }

  /** Links, counters, clocks, buckets and the wake-up event play no part; nor does ending an offer. */
  lemma FitElsewhere(s: State, t: State)
    requires Fit(s)
    requires t.made == s.made && t.tracked == s.tracked && t.handlers == s.handlers && t.pending == s.pending
    requires t.sweep == s.sweep || !t.sweep.Offering?
    ensures Fit(t)
  {
    forall k | 0 <= k < |t.made| ensures RunFit(t, k) {
      assert RunFit(s, k);
    }
  }

  lemma FitPush(c: Config, s: State, id: RunId, cmd: Command, now: Time)
    requires Fit(s)
    ensures Fit(PushTo(c, s, id, cmd, now))
  {
    hide NoteAbnormal;
    if id in s.tracked {
      var r := Named(s, id);
      assert RunFit(s, s.tracked[id]);
      var noted := NoteAbandoned(c, s, r, cmd, now);
      FitElsewhere(s, noted);
      FitWithRun(noted, s.tracked[id], r.(inQueue := r.inQueue + [cmd]));
    }
  }

  lemma FitCancel(s: State, id: RunId)
    requires Fit(s)
    ensures Fit(CancelRun(s, id))
  {
    if id in s.tracked {
      var r := Named(s, id);
      assert RunFit(s, s.tracked[id]);
      var asked := r.(cancelRequested := true);
      if r.claimedBy.Some? {
        FitWithRun(s, s.tracked[id], asked.(inQueue := r.inQueue + [RequestCancel]));
      } else {
        FitWithRun(s, s.tracked[id], asked.(finishers := r.finishers + [RequestCancel]));
      }
    }
  }

  lemma FitTake(c: Config, s: State, h: nat, task: nat, now: Time)
    requires Fit(s) && CanTake(s, h, task)
    ensures Fit(TakeCommand(c, s, h, task, now))
  {
    hide PushTo;
    var r := s.made[h];
    assert RunFit(s, h);
    if Malformed(r.inQueue[0]) {
      FitWithRun(s, h, r.(inQueue := []));
      FitPush(c, Drained(s, h), r.id, Fail(MALFORMED_REASON), now);
    } else {
      FitWithRun(s, h, r.(inQueue := r.inQueue[1..], pipelines := r.pipelines[task := Handling(r.inQueue[0])]));
    }
  }

  lemma FitComplete(s: State, h: nat, task: nat)
    requires Fit(s) && CanComplete(s, h, task)
    ensures Fit(CompleteCommand(s, h, task))
  {
    hide End;
    var r := s.made[h];
    assert RunFit(s, h);
    assert r.pipelines[task] in r.pipelines;
    if Closing(r, r.pipelines[task].cmd) {
      EnderIsTracked(s, h);
      FitEnd(s, h, r.(pipelines := RemoveAt(r.pipelines, task)));
    } else {
      FitWithRun(s, h, r.(pipelines := r.pipelines[task := Waiting]));
    }
  }

  lemma FitFinishShot(s: State, h: nat, task: nat)
    requires Fit(s) && CanFinish(s, h, task)
    ensures Fit(FinishShot(s, h, task))
  {
    hide End;
    EnderIsTracked(s, h);
    FitEnd(s, h, s.made[h].(finishers := RemoveAt(s.made[h].finishers, task)));
  }

  lemma FitLateAck(c: Config, s: State, id: RunId, claimant: Key, now: Time)
    requires Fit(s)
    ensures Fit(AcceptLateAck(c, s, id, claimant, now))
  {
    hide NoteAbnormal, TakeOver, Unqueue;
    if LateAckAllowed(s, id, claimant) {
      var h := s.tracked[id];
      var u := TakeOver(s, h, claimant);
      FitTakeOver(s, h, claimant);
      TakeOverFrame(s, h, claimant);
      FitUnqueue(u, s.made[h].agent, id);
      FitElsewhere(Unqueue(u, s.made[h].agent, id), AcceptLateAck(c, s, id, claimant, now));
    }
  }

  lemma FitAccepted(s: State)
    requires Fit(s) && s.sweep.Offering?
    ensures Fit(OfferAccepted(s))
  {
    hide TakeOver, Unqueue, Fit, Finishing, IsTracked, Harmless;
    FitIsWellFormed(s);
    var h := s.sweep.run;
    var key := s.sweep.provider.key;
    EnderIsTracked(s, h);
    FitTakeOver(s, h, key);
    TakeOverFrame(s, h, key);
    var u := TakeOver(s, h, key);
    FitUnqueue(u, s.sweep.agent, s.made[h].id);
    UnqueueFrame(u, s.sweep.agent, s.made[h].id);
    FitElsewhere(Unqueue(u, s.sweep.agent, s.made[h].id), OfferAccepted(s));
  }

  lemma FitRefused(s: State, reason: string)
    requires Fit(s) && s.sweep.Offering?
    ensures Fit(OfferRefused(s, reason))
  {
    hide Unqueue, Harmless, Queue, Fit;
    FitIsWellFormed(s);
    var h := s.sweep.run;
    var r := s.made[h];
    RunIsFit(s, h);
    EnderIsTracked(s, h);
    FitWithRun(s, h, r.(finishers := r.finishers + [Fail(reason)]));
    var u := SpawnFinisher(s, h, Fail(reason));
    FitUnqueue(u, s.sweep.agent, r.id);
    UnqueueFrame(u, s.sweep.agent, r.id);
    FitElsewhere(Unqueue(u, s.sweep.agent, r.id), OfferRefused(s, reason));
  }

  lemma FitAnswer(c: Config, s: State, answer: Answer, now: Time)
    requires Fit(s) && s.sweep.Offering?
    ensures Fit(AnswerOffer(c, s, answer, now))
  {
    hide OfferAccepted, OfferRefused, NoteAbnormal;
    match answer
    case NoAnswer => FitElsewhere(s, OfferUnanswered(c, s, now));
    case Refused(reason) => FitRefused(s, reason);
    case Declined => FitElsewhere(s, OfferDeclined(c, s, now));
    case Accepted => FitAccepted(s);
  }

  lemma {:induction false} OfferableDrops(s: State, queue: seq<RunId>)
    requires WellFormed(s)
    ensures forall id :: id in queue && id in s.tracked && !Named(s, id).cancelRequested ==> id in Offerable(s, queue)
  {
    if queue != [] {
      OfferableDrops(s, queue[1..]);
    }
  }

  /** Dropping entries from one agent's queue, as long as every live run in it stays. */
  lemma FitQueue(s: State, agent: AgentRef, queue: seq<RunId>)
    requires Fit(s) && agent in s.pending
    requires forall id :: id in s.pending[agent] && id in s.tracked && !Named(s, id).cancelRequested ==> id in queue
    ensures Fit(s.(pending := s.pending[agent := queue]))
  {
    var t := s.(pending := s.pending[agent := queue]);
    forall k | 0 <= k < |t.made| ensures RunFit(t, k) {
      assert RunFit(s, k);
    }
  }

  /** An offer may start for a tracked run. */
  lemma FitSweep(s: State, sweep: Sweep)
    requires Fit(s)
    requires sweep.Offering? ==> IsTracked(s, sweep.run)
    ensures Fit(s.(sweep := sweep))
  {
    var t := s.(sweep := sweep);
    forall k | 0 <= k < |t.made| ensures RunFit(t, k) {
      assert RunFit(s, k);
    }
  }

  lemma FitScan(s: State)
    requires Fit(s) && s.sweep.Scanning?
    ensures Fit(ScanNext(s))
  {
    hide Fit, Offerable;
    FitIsWellFormed(s);
    var left := s.sweep.left;
    var u := s.(pending := ScannedQueues(s));
    if left == [] || left[0] !in s.links || left[0] !in s.pending {
      FitSweep(s, ScannedSweep(s));
    } else {
      OfferableDrops(s, s.pending[left[0]]);
      FitQueue(s, left[0], Offerable(s, s.pending[left[0]]));
      FitIsWellFormed(u);
      FitSweep(u, ScannedSweep(s));
    }
  }

  lemma FitWake(c: Config, s: State, order: seq<AgentRef>, now: Time)
    requires Fit(s) && !s.sweep.Offering?
    ensures Fit(WakeUp(c, s, order, now))
  {
    FitExpireAgents(s, order, now - c.unservedTimeout);
    FitElsewhere(ExpireAgents(s, order, now - c.unservedTimeout), WakeUp(c, s, order, now));
  }

  lemma FitExpireOne(s: State, agent: AgentRef, id: RunId, cutoff: Time)
    requires Fit(s)
    ensures Fit(ExpireOne(s, agent, id, cutoff))
  {
    hide Unqueue;
    if Expires(s, agent, id, cutoff) {
      var h := s.tracked[id];
      var r := s.made[h];
      assert RunFit(s, h);
      FitWithRun(s, h, r.(finishers := r.finishers + [Fail(NO_PROVIDER_REASON)]));
      FitUnqueue(SpawnFinisher(s, h, Fail(NO_PROVIDER_REASON)), agent, id);
      SpawnUnqueueCommute(s, h, Fail(NO_PROVIDER_REASON), agent, id);
    }
  }

  lemma SpawnUnqueueCommute(s: State, h: nat, cmd: Command, agent: AgentRef, id: RunId)
    requires WellFormed(s) && h < |s.made|
    ensures SpawnFinisher(Unqueue(s, agent, id), h, cmd) == Unqueue(SpawnFinisher(s, h, cmd), agent, id)
  {
    hide RemoveFirst;
  }

  lemma {:induction false} FitExpireQueue(s: State, agent: AgentRef, ids: seq<RunId>, cutoff: Time)
    requires Fit(s)
    ensures Fit(ExpireQueue(s, agent, ids, cutoff))
    decreases |ids|
  {
    hide Fit, ExpireOne;
    if ids != [] {
      FitExpireOne(s, agent, ids[0], cutoff);
      FitIsWellFormed(s);
      FitExpireQueue(ExpireOne(s, agent, ids[0], cutoff), agent, ids[1..], cutoff);
    }
  }

  lemma {:induction false} FitExpireAgents(s: State, agents: seq<AgentRef>, cutoff: Time)
    requires Fit(s)
    ensures Fit(ExpireAgents(s, agents, cutoff))
    decreases |agents|
  {
    if agents != [] {
      if agents[0] in s.links {
        FitExpireAgents(s, agents[1..], cutoff);
      } else {
        FitExpireQueue(s, agents[0], Queue(s, agents[0]), cutoff);
        FitExpireAgents(ExpireQueue(s, agents[0], Queue(s, agents[0]), cutoff), agents[1..], cutoff);
      }
    }
  }

  lemma FitEnqueue(s: State, id: RunId, agent: AgentRef, now: Time)
    requires Fit(s) && !Contested(s, id)
    ensures Fit(EnqueueRun(s, id, agent, true, now))
  {
    var t := EnqueueRun(s, id, agent, true, now);
    if !s.sweep.Stopped? {
      forall k | 0 <= k < |t.made| ensures RunFit(t, k) {
        if k < |s.made| {
          assert RunFit(s, k);
        }
      }
    }
  }

  lemma FitNext(c: Config, s: State, step: Step, now: Time)
    requires Fit(s) && Enabled(s, step) && UncontestedStep(s, step)
    ensures Fit(Next(c, s, step, now))
  {
    hide Fit, WakeUp, ScanNext, AnswerOffer, PushTo, AcceptLateAck, TakeCommand, CompleteCommand, FinishShot,
      EnqueueRun, CancelRun;
    match step
    case Start => FitElsewhere(s, s.(sweep := Ready, workToDo := false));
    case Enqueue(id, agent, _) => FitEnqueue(s, id, agent, now);
    case Attach(connection, names) => FitElsewhere(s, Register(s, connection, names));
    case Detach(agents) => FitElsewhere(s, Withdraw(s, agents, now));
    case Wake(order) => FitWake(c, s, order, now);
    case Scan => FitScan(s);
    case Answered(answer) => FitAnswer(c, s, answer, now);
    case Push(id, cmd) => FitPush(c, s, id, cmd, now);
    case Cancel(id) => FitCancel(s, id);
    case LateAck(id, claimant) => FitLateAck(c, s, id, claimant, now);
    case Take(h, task) => FitTake(c, s, h, task, now);
    case Complete(h, task) => FitComplete(s, h, task);
    case FinishOneShot(h, task) => FitFinishShot(s, h, task);
  }

  /** Callers enqueue only uncontested ids, each with its handlers. */
  ghost predicate UncontestedExecution(c: Config, states: seq<State>, moments: seq<Moment>) {
    && Execution(c, states, moments)
    && (forall i :: 0 <= i < |moments| ==> UncontestedStep(states[i], moments[i].step))
  }

  lemma {:induction false} AlwaysFit(c: Config, states: seq<State>, moments: seq<Moment>, n: nat)
    requires UncontestedExecution(c, states, moments) && n < |states|
    ensures Fit(states[n])
  {
    hide Next, Enabled;
    if n > 0 {
      AlwaysFit(c, states, moments, n - 1);
      assert UncontestedStep(states[n - 1], moments[n - 1].step);
      assert Happens(c, states[n - 1], moments[n - 1], states[n - 1 + 1]);
      FitNext(c, states[n - 1], moments[n - 1].step, moments[n - 1].at);
    }
  }

  /** No run is stranded, over every interleaving in which enqueued ids are uncontested. */
  lemma NoStrandedRun(c: Config, states: seq<State>, moments: seq<Moment>, n: nat, h: nat)
    requires UncontestedExecution(c, states, moments) && n < |states| && h < |states[n].made|
    ensures Unstranded(states[n], h)
  {
    AlwaysFit(c, states, moments, n);
    assert RunFit(states[n], h);
  }
}

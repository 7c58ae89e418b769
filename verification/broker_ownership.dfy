/**
 Sole ownership: a claimed run that exactly one pipeline and no other task acts for. A step ends it if and only
 if that pipeline ends the run by it, or an offer of the run that a late ack has overtaken is accepted or refused.
 */
module BrokerOwnership {
  import opened Basics
  import opened Events
  import opened BrokerSpec
  import opened BrokerSound
  import opened BrokerStranded
  import opened BrokerOrder

  predicate InNoQueue(s: State, id: RunId) {
    forall a :: a in s.pending ==> id !in s.pending[a]
  }

  /** The run is tracked and claimed, has one pipeline and no one-shot, and is in no queue. */
  predicate SolelyOwned(s: State, h: nat) {
    && IsTracked(s, h) && s.made[h].claimedBy.Some? && !s.made[h].ended
    && |s.made[h].pipelines| == 1 && s.made[h].finishers == []
    && InNoQueue(s, s.made[h].id)
  }

  /** An offer of the run is answered by an acceptance or a permanent refusal. */
  predicate Overtaken(s: State, h: nat, step: Step) {
    step.Answered? && (step.answer.Accepted? || step.answer.Refused?) && OnOffer(s, h)
  }

  /** The run's own pipeline finishes the handler of a closing command. */
  predicate EndsItself(s: State, h: nat, step: Step) {
    step == Complete(h, 0) && CanComplete(s, h, 0) && Closing(s.made[h], s.made[h].pipelines[0].cmd)
  }

  /** The run has ended: its id leads elsewhere or nowhere, and no task is left to act for it. */
  predicate Retired(s: State, h: nat) {
    && h < |s.made| && s.made[h].ended && !IsTracked(s, h)
    && s.made[h].pipelines == [] && s.made[h].finishers == []
  }

  /** What may happen to an owned run while its own pipeline does not move: commands arrive, it is cancelled, and an
      offer of it still outstanding is withdrawn; no new one is made. */
  predicate Kept(s: State, t: State, h: nat) {
    && h < |s.made| <= |t.made|
    && t.made[h] == s.made[h].(inQueue := t.made[h].inQueue, cancelRequested := t.made[h].cancelRequested)
    && s.made[h].inQueue <= t.made[h].inQueue
    && (s.made[h].cancelRequested ==> t.made[h].cancelRequested)
    && IsTracked(t, h) && InNoQueue(t, s.made[h].id) && (OnOffer(t, h) ==> OnOffer(s, h))
  }

  lemma KeptIsOwned(s: State, t: State, h: nat)
    requires SolelyOwned(s, h) && Kept(s, t, h)
    ensures SolelyOwned(t, h)
  {
  }

  lemma OtherObject(s: State, h: nat, id: RunId)
    requires WellFormed(s) && IsTracked(s, h) && id in s.tracked && id != s.made[h].id
    ensures s.tracked[id] != h
  {
  }

  lemma KeptElsewhere(s: State, t: State, h: nat)
    requires SolelyOwned(s, h) && t.made == s.made && t.tracked == s.tracked && t.pending == s.pending
    requires t.sweep == s.sweep || !t.sweep.Offering?
    ensures Kept(s, t, h)
  {
  }

  lemma KeptWithOther(s: State, h: nat, k: nat, r: RunRecord)
    requires WellFormed(s) && SolelyOwned(s, h) && k < |s.made| && k != h && r.id == s.made[k].id
    ensures Kept(s, WithRun(s, k, r), h)
  {
  }

  lemma UnqueueOnlyRemoves(s: State, agent: AgentRef, id: RunId, other: RunId)
    ensures InNoQueue(s, other) ==> InNoQueue(Unqueue(s, agent, id), other)
  {
    RemoveFirstMembers(Queue(s, agent), id);
    hide RemoveFirst;
  }

  lemma KeptUnqueue(s: State, t: State, h: nat, agent: AgentRef, id: RunId)
    requires h < |s.made| && Kept(s, t, h)
    ensures Kept(s, Unqueue(t, agent, id), h)
  {
    UnqueueOnlyRemoves(t, agent, id, s.made[h].id);
    UnqueueFrame(t, agent, id);
    hide Unqueue, InNoQueue;
  }

  /** What a step puts on the run's in_queue: a push or a cancel under its id, or the Fail of a malformed event that
      a pipeline left over from an older run of the same id has met. */
  function Arrival(s: State, h: nat, step: Step): seq<Command>
    requires h < |s.made| && Enabled(s, step)
  {
    var id := s.made[h].id;
    match step
    case Push(other, cmd) => if other == id then [cmd] else []
    case Cancel(other) => if other == id then [RequestCancel] else []
    case Take(k, _) =>
      if k != h && s.made[k].id == id && Malformed(s.made[k].inQueue[0]) then [Fail(MALFORMED_REASON)] else []
    case _ => []
  }

  // ------------------------------------------------------------------------- step by step

  lemma PushKeeps(c: Config, s: State, h: nat, id: RunId, cmd: Command, now: Time)
    requires WellFormed(s) && SolelyOwned(s, h)
    ensures var t := PushTo(c, s, id, cmd, now);
      && Kept(s, t, h) && t.made[h].cancelRequested == s.made[h].cancelRequested
      && t.made[h].inQueue == if id == s.made[h].id then s.made[h].inQueue + [cmd] else s.made[h].inQueue
  {
    hide NoteAbnormal;
    if id in s.tracked && id != s.made[h].id {
      OtherObject(s, h, id);
    }
  }

  lemma CancelKeeps(s: State, h: nat, id: RunId)
    requires WellFormed(s) && SolelyOwned(s, h)
    ensures var t := CancelRun(s, id);
      && Kept(s, t, h)
      && (id == s.made[h].id ==> t.made[h].cancelRequested && t.made[h].inQueue == s.made[h].inQueue + [RequestCancel])
      && (id != s.made[h].id ==> t.made[h] == s.made[h])
  {
    hide InNoQueue, Kept, SolelyOwned, CancelRun;
    OwnedIsMade(s, h);
    if id == s.made[h].id {
      CancelOwn(s, h);
    } else {
      CancelOther(s, h, id);
    }
  }

  lemma CancelOther(s: State, h: nat, id: RunId)
    requires WellFormed(s) && SolelyOwned(s, h) && id != s.made[h].id
    ensures var t := CancelRun(s, id); Kept(s, t, h) && t.made[h] == s.made[h]
  {
    hide InNoQueue, Kept, SolelyOwned;
    OwnedIsMade(s, h);
    if id in s.tracked {
      OtherObject(s, h, id);
      var r := Named(s, id).(cancelRequested := true);
      KeptWithOther(s, h, s.tracked[id], if r.claimedBy.Some? then r.(inQueue := r.inQueue + [RequestCancel])
                                         else r.(finishers := r.finishers + [RequestCancel]));
    } else {
      KeptElsewhere(s, s, h);
    }
  }

  lemma CancelOwn(s: State, h: nat)
    requires WellFormed(s) && SolelyOwned(s, h)
    ensures var r, t := s.made[h], CancelRun(s, s.made[h].id);
      Kept(s, t, h) && t.made[h] == r.(cancelRequested := true, inQueue := r.inQueue + [RequestCancel])
  {
    hide InNoQueue;
    SameQueues(s, CancelRun(s, s.made[h].id), s.made[h].id);
  }

  lemma LateAckKeeps(c: Config, s: State, h: nat, id: RunId, claimant: Key, now: Time)
    requires WellFormed(s) && SolelyOwned(s, h)
    ensures var t := AcceptLateAck(c, s, id, claimant, now); Kept(s, t, h) && t.made[h] == s.made[h]
  {
    hide NoteAbnormal, TakeOver, Unqueue, InNoQueue;
    if LateAckAllowed(s, id, claimant) {
      OtherObject(s, h, id);
      var k := s.tracked[id];
      TakeOverFrame(s, k, claimant);
      var u := TakeOver(s, k, claimant);
      assert Kept(s, u, h) by { SameQueues(s, u, s.made[h].id); }
      KeptUnqueue(s, u, h, s.made[k].agent, id);
      var v := Unqueue(u, s.made[k].agent, id);
      UnqueueFrame(u, s.made[k].agent, id);
      SameQueues(v, NoteAbnormal(c, v, claimant, AnsweredLate, now), s.made[h].id);
    }
  }

  lemma SameQueues(s: State, t: State, id: RunId)
    requires t.pending == s.pending
    ensures InNoQueue(t, id) == InNoQueue(s, id)
  {
  }

  lemma AcceptedKeeps(s: State, h: nat)
    requires WellFormed(s) && SolelyOwned(s, h) && s.sweep.Offering? && !OnOffer(s, h)
    ensures Kept(s, OfferAccepted(s), h) && OfferAccepted(s).made[h] == s.made[h]
  {
    hide TakeOver, Unqueue, InNoQueue;
    var k, key := s.sweep.run, s.sweep.provider.key;
    TakeOverFrame(s, k, key);
    var u := TakeOver(s, k, key);
    SameQueues(s, u, s.made[h].id);
    assert Kept(s, u, h);
    KeptUnqueue(s, u, h, s.sweep.agent, s.made[k].id);
    UnqueueFrame(u, s.sweep.agent, s.made[k].id);
    var v := Unqueue(u, s.sweep.agent, s.made[k].id);
    SameQueues(v, OfferAccepted(s), s.made[h].id);
  }

  lemma RefusedKeeps(s: State, h: nat, reason: string)
    requires WellFormed(s) && SolelyOwned(s, h) && s.sweep.Offering? && !OnOffer(s, h)
    ensures Kept(s, OfferRefused(s, reason), h) && OfferRefused(s, reason).made[h] == s.made[h]
  {
    hide Unqueue, InNoQueue;
    var k := s.sweep.run;
    var u := SpawnFinisher(s, k, Fail(reason));
    SameQueues(s, u, s.made[h].id);
    assert Kept(s, u, h);
    KeptUnqueue(s, u, h, s.sweep.agent, s.made[k].id);
    UnqueueFrame(u, s.sweep.agent, s.made[k].id);
    SameQueues(Unqueue(u, s.sweep.agent, s.made[k].id), OfferRefused(s, reason), s.made[h].id);
  }

  lemma AnswerKeeps(c: Config, s: State, h: nat, answer: Answer, now: Time)
    requires WellFormed(s) && SolelyOwned(s, h) && s.sweep.Offering? && !Overtaken(s, h, Answered(answer))
    ensures var t := AnswerOffer(c, s, answer, now); Kept(s, t, h) && t.made[h] == s.made[h]
  {
    hide NoteAbnormal, OfferAccepted, OfferRefused, InNoQueue;
    match answer
    case Accepted => AcceptedKeeps(s, h);
    case Refused(reason) => RefusedKeeps(s, h, reason);
    case NoAnswer => KeptElsewhere(s, OfferUnanswered(c, s, now), h);
    case Declined => KeptElsewhere(s, OfferDeclined(c, s, now), h);
  }

  lemma {:induction false} OfferableMembers(s: State, queue: seq<RunId>)
    requires WellFormed(s)
    ensures forall id :: id in Offerable(s, queue) ==> id in queue
  {
    if queue != [] {
      OfferableMembers(s, queue[1..]);
    }
  }

  lemma ScanLeavesQueue(s: State, id: RunId)
    requires WellFormed(s) && s.sweep.Scanning? && InNoQueue(s, id)
    ensures InNoQueue(ScanNext(s), id)
  {
    hide Offerable;
    var left := s.sweep.left;
    if left != [] && left[0] in s.pending {
      OfferableMembers(s, s.pending[left[0]]);
    }
  }

  lemma ScanOffersQueued(s: State)
    requires WellFormed(s) && s.sweep.Scanning?
    ensures ScannedSweep(s).Offering? ==>
              exists a, id :: && a in s.pending && id in s.pending[a]
                              && id in s.tracked && ScannedSweep(s).run == s.tracked[id]
  {
    hide Offerable;
    var left := s.sweep.left;
    if left != [] {
      OfferableMembers(s, Queue(s, left[0]));
      var queue := Offerable(s, Queue(s, left[0]));
      if queue != [] {
        assert queue[0] in Queue(s, left[0]);
      }
    }
  }

  lemma ScanKeeps(s: State, h: nat)
    requires WellFormed(s) && SolelyOwned(s, h) && s.sweep.Scanning?
    ensures Kept(s, ScanNext(s), h) && ScanNext(s).made[h] == s.made[h]
  {
    ScanLeavesQueue(s, s.made[h].id);
    ScanOffersQueued(s);
    hide ScannedSweep, ScannedQueues;
    if ScannedSweep(s).Offering? {
      var a, id :| a in s.pending && id in s.pending[a] && id in s.tracked && ScannedSweep(s).run == s.tracked[id];
      OtherObject(s, h, id);
    }
    hide InNoQueue;
  }

  lemma ExpireOneKeeps(s: State, h: nat, agent: AgentRef, id: RunId, cutoff: Time)
    requires WellFormed(s) && SolelyOwned(s, h) && id != s.made[h].id
    ensures var t := ExpireOne(s, agent, id, cutoff); Kept(s, t, h) && t.made[h] == s.made[h]
  {
    hide Unqueue;
    if Expires(s, agent, id, cutoff) {
      OtherObject(s, h, id);
      UnqueueOnlyRemoves(s, agent, id, s.made[h].id);
      UnqueueFrame(s, agent, id);
    }
  }

  lemma {:induction false} ExpireQueueKeeps(s: State, h: nat, agent: AgentRef, ids: seq<RunId>, cutoff: Time)
    requires WellFormed(s) && SolelyOwned(s, h) && s.made[h].id !in ids
    ensures var t := ExpireQueue(s, agent, ids, cutoff); Kept(s, t, h) && t.made[h] == s.made[h]
    decreases |ids|
  {
    hide ExpireOne, InNoQueue;
    if ids != [] {
      ExpireOneKeeps(s, h, agent, ids[0], cutoff);
      var t := ExpireOne(s, agent, ids[0], cutoff);
      ExpireQueueKeeps(t, h, agent, ids[1..], cutoff);
    }
  }

  lemma {:induction false} ExpireAgentsKeeps(s: State, h: nat, agents: seq<AgentRef>, cutoff: Time)
    requires WellFormed(s) && SolelyOwned(s, h)
    ensures var t := ExpireAgents(s, agents, cutoff); Kept(s, t, h) && t.made[h] == s.made[h]
    decreases |agents|
  {
    hide ExpireQueue;
    if agents != [] {
      var first := if agents[0] in s.links then s else ExpireQueue(s, agents[0], Queue(s, agents[0]), cutoff);
      if agents[0] !in s.links {
        ExpireQueueKeeps(s, h, agents[0], Queue(s, agents[0]), cutoff);
      }
      hide InNoQueue;
      ExpireAgentsKeeps(first, h, agents[1..], cutoff);
    }
  }

  lemma EnqueueKeeps(s: State, h: nat, id: RunId, agent: AgentRef, withHandlers: bool, now: Time)
    requires WellFormed(s) && SolelyOwned(s, h) && id != s.made[h].id
    ensures var t := EnqueueRun(s, id, agent, withHandlers, now); Kept(s, t, h) && t.made[h] == s.made[h]
  {
    EnqueueQueuesOnly(s, id, agent, withHandlers, now, s.made[h].id);
    hide InNoQueue;
  }

  lemma EnqueueQueuesOnly(s: State, id: RunId, agent: AgentRef, withHandlers: bool, now: Time, other: RunId)
    requires WellFormed(s) && InNoQueue(s, other) && id != other
    ensures InNoQueue(EnqueueRun(s, id, agent, withHandlers, now), other)
  {
  }

  lemma OtherDrainKeeps(c: Config, s: State, h: nat, k: nat, now: Time)
    requires WellFormed(s) && SolelyOwned(s, h) && k != h && k < |s.made|
    ensures var t := PushTo(c, Drained(s, k), s.made[k].id, Fail(MALFORMED_REASON), now);
      && Kept(s, t, h) && t.made[h].cancelRequested == s.made[h].cancelRequested
      && t.made[h].inQueue == s.made[h].inQueue + if s.made[k].id == s.made[h].id then [Fail(MALFORMED_REASON)] else []
  {
    hide PushTo, InNoQueue;
    KeptWithOther(s, h, k, s.made[k].(inQueue := []));
    var u := Drained(s, k);
    KeptIsOwned(s, u, h);
    PushKeeps(c, u, h, s.made[k].id, Fail(MALFORMED_REASON), now);
  }

  lemma OtherTakeKeeps(c: Config, s: State, h: nat, k: nat, task: nat, now: Time)
    requires WellFormed(s) && SolelyOwned(s, h) && k != h && CanTake(s, k, task)
    ensures h < |s.made|
    ensures var t := TakeCommand(c, s, k, task, now);
      && Kept(s, t, h) && t.made[h].cancelRequested == s.made[h].cancelRequested
      && t.made[h].inQueue == s.made[h].inQueue + Arrival(s, h, Take(k, task))
  {
    hide PushTo, InNoQueue, Kept, SolelyOwned;
    OwnedIsMade(s, h);
    var r := s.made[k];
    if Malformed(r.inQueue[0]) {
      OtherDrainKeeps(c, s, h, k, now);
    } else {
      KeptWithOther(s, h, k, r.(inQueue := r.inQueue[1..], pipelines := r.pipelines[task := Handling(r.inQueue[0])]));
      assert s.made[h].inQueue + [] == s.made[h].inQueue;
    }
  }

  lemma OwnedIsMade(s: State, h: nat)
    requires SolelyOwned(s, h)
    ensures IsTracked(s, h)
  {
  }

  lemma OtherEndKeeps(s: State, h: nat, k: nat, r: RunRecord)
    requires WellFormed(s) && SolelyOwned(s, h)
    requires k < |s.made| && k != h && r.id == s.made[k].id && r.id != s.made[h].id
    ensures Kept(s, End(WithRun(s, k, r), k), h) && End(WithRun(s, k, r), k).made[h] == s.made[h]
  {
    hide End;
    EndEffect(WithRun(s, k, r), k);
  }

  lemma OtherCompleteKeeps(s: State, h: nat, k: nat, task: nat)
    requires Fit(s) && SolelyOwned(s, h) && k != h && CanComplete(s, k, task)
    ensures Kept(s, CompleteCommand(s, k, task), h) && CompleteCommand(s, k, task).made[h] == s.made[h]
  {
    hide End, InNoQueue;
    var r := s.made[k];
    assert RunFit(s, k) && r.pipelines[task] in r.pipelines;
    if Closing(r, r.pipelines[task].cmd) {
      OtherEndKeeps(s, h, k, r.(pipelines := RemoveAt(r.pipelines, task)));
    } else {
      KeptWithOther(s, h, k, r.(pipelines := r.pipelines[task := Waiting]));
    }
  }

  lemma OtherShotKeeps(s: State, h: nat, k: nat, task: nat)
    requires Fit(s) && SolelyOwned(s, h) && CanFinish(s, k, task)
    ensures k != h && Kept(s, FinishShot(s, k, task), h) && FinishShot(s, k, task).made[h] == s.made[h]
  {
    hide End, InNoQueue;
    assert RunFit(s, k);
    OtherEndKeeps(s, h, k, s.made[k].(finishers := RemoveAt(s.made[k].finishers, task)));
  }

  /** Steps that bring no command to the run. */
  lemma QuietStepKeeps(c: Config, s: State, h: nat, step: Step, now: Time)
    requires Fit(s) && SolelyOwned(s, h) && Enabled(s, step) && UncontestedStep(s, step) && !Overtaken(s, h, step)
    requires !step.Take? && !step.Push? && !step.Cancel? && !(step.Complete? && step.run == h)
    ensures var t := Next(c, s, step, now); h < |s.made| && Kept(s, t, h) && t.made[h] == s.made[h]
  {
    hide WakeUp, ScanNext, AnswerOffer, AcceptLateAck, CompleteCommand, FinishShot, EnqueueRun, Fit, InNoQueue, Kept;
    FitIsWellFormed(s);
    match step
    case Start => KeptElsewhere(s, s.(sweep := Ready, workToDo := false), h);
    case Enqueue(id, agent, withHandlers) => EnqueueKeeps(s, h, id, agent, withHandlers, now);
    case Attach(connection, names) => KeptElsewhere(s, Register(s, connection, names), h);
    case Detach(agents) => KeptElsewhere(s, Withdraw(s, agents, now), h);
    case Wake(order) => WakeKeeps(c, s, h, order, now);
    case Scan => ScanKeeps(s, h);
    case Answered(answer) => AnswerKeeps(c, s, h, answer, now);
    case LateAck(id, claimant) => LateAckKeeps(c, s, h, id, claimant, now);
    case Complete(k, task) => OtherCompleteKeeps(s, h, k, task);
    case FinishOneShot(k, task) => OtherShotKeeps(s, h, k, task);
  }

  /** Anything but a move of the owned run's own pipeline, or the acceptance or refusal of an offer of it, keeps it,
      and brings it exactly the step's commands. */
  lemma OthersKeep(c: Config, s: State, h: nat, step: Step, now: Time)
    requires Fit(s) && SolelyOwned(s, h) && Enabled(s, step) && UncontestedStep(s, step) && !Overtaken(s, h, step)
    requires !(step.Take? && step.run == h) && !(step.Complete? && step.run == h)
    ensures var t := Next(c, s, step, now);
      && Kept(s, t, h) && t.made[h].inQueue == s.made[h].inQueue + Arrival(s, h, step)
      && t.made[h].cancelRequested == (s.made[h].cancelRequested || step == Cancel(s.made[h].id))
  {
    hide PushTo, TakeCommand, CancelRun, Fit, InNoQueue;
    FitIsWellFormed(s);
    if step.Push? {
      PushKeeps(c, s, h, step.id, step.cmd, now);
      assert s.made[h].inQueue + [] == s.made[h].inQueue;
    } else if step.Cancel? {
      CancelKeeps(s, h, step.id);
      assert s.made[h].inQueue + [] == s.made[h].inQueue;
    } else if step.Take? {
      OtherTakeKeeps(c, s, h, step.run, step.task, now);
    } else {
      hide Next, Kept;
      QuietStepKeeps(c, s, h, step, now);
      assert s.made[h].inQueue + [] == s.made[h].inQueue;
    }
  }

  lemma WakeKeeps(c: Config, s: State, h: nat, order: seq<AgentRef>, now: Time)
    requires WellFormed(s) && SolelyOwned(s, h) && !s.sweep.Offering?
    ensures Kept(s, WakeUp(c, s, order, now), h) && WakeUp(c, s, order, now).made[h] == s.made[h]
  {
    hide ExpireAgents;
    var cutoff := now - c.unservedTimeout;
    ExpireAgentsKeeps(s, h, order, cutoff);
    hide InNoQueue;
    SameQueues(ExpireAgents(s, order, cutoff), WakeUp(c, s, order, now), s.made[h].id);
  }

  /** Its pipeline takes a command, a malformed event leaving its Fail as the only one. */
  lemma OwnTake(c: Config, s: State, h: nat, task: nat, now: Time)
    requires Fit(s) && SolelyOwned(s, h) && CanTake(s, h, task)
    ensures task == 0 && s.made[h].pipelines[0].Waiting? && SolelyOwned(TakeCommand(c, s, h, task, now), h)
    ensures var r := s.made[h];
      TakeCommand(c, s, h, task, now).made[h]
      == if Malformed(r.inQueue[0]) then r.(inQueue := [Fail(MALFORMED_REASON)])
         else r.(inQueue := r.inQueue[1..], pipelines := [Handling(r.inQueue[0])])
  {
    hide Fit, PushTo, InNoQueue;
    FitIsWellFormed(s);
    if Malformed(s.made[h].inQueue[0]) {
      OwnDrain(c, s, h, now);
    } else {
      SameQueues(s, StartHandling(s, h, task), s.made[h].id);
    }
  }

  lemma OwnDrain(c: Config, s: State, h: nat, now: Time)
    requires WellFormed(s) && SolelyOwned(s, h)
    ensures var t := PushTo(c, Drained(s, h), s.made[h].id, Fail(MALFORMED_REASON), now);
      SolelyOwned(t, h) && t.made[h] == s.made[h].(inQueue := [Fail(MALFORMED_REASON)])
  {
    hide PushTo, InNoQueue;
    var u := Drained(s, h);
    SameQueues(s, u, s.made[h].id);
    assert SolelyOwned(u, h);
    PushKeeps(c, u, h, s.made[h].id, Fail(MALFORMED_REASON), now);
    KeptIsOwned(u, PushTo(c, u, s.made[h].id, Fail(MALFORMED_REASON), now), h);
    assert [] + [Fail(MALFORMED_REASON)] == [Fail(MALFORMED_REASON)];
  }

  /** Its pipeline finishes a command: it waits again, or the run is over and forgotten. */
  lemma OwnComplete(s: State, h: nat, task: nat)
    requires Fit(s) && SolelyOwned(s, h) && CanComplete(s, h, task)
    ensures var r, t := s.made[h], CompleteCommand(s, h, task);
      && task == 0 && |t.made| == |s.made|
      && if Closing(r, r.pipelines[0].cmd) then
           Retired(t, h) && t.made[h] == r.(pipelines := [], ended := true)
         else SolelyOwned(t, h) && t.made[h] == r.(pipelines := [Waiting])
  {
    hide End, Fit;
    FitIsWellFormed(s);
    var r := s.made[h];
    EndEffect(WithRun(s, h, r.(pipelines := RemoveAt(r.pipelines, task))), h);
    hide InNoQueue;
    SameQueues(s, WithRun(s, h, r.(pipelines := r.pipelines[task := Waiting])), r.id);
  }

  lemma OwnershipKept(c: Config, s: State, h: nat, step: Step, now: Time)
    requires Fit(s) && SolelyOwned(s, h) && Enabled(s, step) && UncontestedStep(s, step) && !Overtaken(s, h, step)
    ensures var t := Next(c, s, step, now); if EndsItself(s, h, step) then Retired(t, h) else SolelyOwned(t, h)
  {
    hide Next, Fit, Kept, InNoQueue, CompleteCommand, TakeCommand;
    FitIsWellFormed(s);
    if step.Take? && step.run == h {
      OwnTake(c, s, h, step.task, now);
      NextTakes(c, s, h, step.task, now);
    } else if step.Complete? && step.run == h {
      OwnComplete(s, h, step.task);
      NextTakes(c, s, h, step.task, now);
    } else {
      OthersKeep(c, s, h, step, now);
      KeptIsOwned(s, Next(c, s, step, now), h);
    }
  }

  /** More than one task acts for the run, or it has ended. */
  predicate Crowded(s: State, h: nat) {
    h < |s.made| && (s.made[h].ended || |s.made[h].pipelines| + |s.made[h].finishers| > 1)
  }

  /** Accepting an offer that a late ack has overtaken gives the run a second pipeline and a second claim. */
  lemma AcceptanceCrowds(s: State, h: nat)
    requires Fit(s) && SolelyOwned(s, h) && OnOffer(s, h)
    ensures WellFormed(s) && |OfferAccepted(s).made| == |s.made|
    ensures var r := s.made[h];
      OfferAccepted(s).made[h] == r.(claimedBy := Some(s.sweep.provider.key), pipelines := r.pipelines + [Waiting],
                                     inQueue := r.inQueue + [Claim])
  {
    assert RunFit(s, h);
    hide Unqueue, InNoQueue, Fit;
    UnqueueFrame(TakeOver(s, h, s.sweep.provider.key), s.sweep.agent, s.made[h].id);
  }

  /** Refusing it gives the run a one-shot beside its pipeline. */
  lemma RefusalCrowds(s: State, h: nat, reason: string)
    requires Fit(s) && SolelyOwned(s, h) && OnOffer(s, h)
    ensures WellFormed(s) && |OfferRefused(s, reason).made| == |s.made|
    ensures OfferRefused(s, reason).made[h] == s.made[h].(finishers := [Fail(reason)])
    ensures OfferRefused(s, reason).tracked == s.tracked
  {
    hide Unqueue, InNoQueue;
    UnqueueFrame(SpawnFinisher(s, h, Fail(reason)), s.sweep.agent, s.made[h].id);
    assert [] + [Fail(reason)] == [Fail(reason)];
  }

  lemma OvertakenCrowds(c: Config, s: State, h: nat, step: Step, now: Time)
    requires Fit(s) && SolelyOwned(s, h) && Overtaken(s, h, step)
    ensures Enabled(s, step) && WellFormed(s) && Crowded(Next(c, s, step, now), h)
  {
    hide OfferAccepted, OfferRefused, InNoQueue, Fit;
    match step.answer {
      case Accepted => AcceptanceCrowds(s, h);
      case Refused(reason) => RefusalCrowds(s, h, reason);
      case _ =>
    }
  }

  /** A step keeps sole ownership if and only if the run's own pipeline does not end it by that step, and no offer of
      it is accepted or refused by it. */
  lemma OwnershipLasts(c: Config, s: State, h: nat, step: Step, now: Time)
    requires Fit(s) && SolelyOwned(s, h) && Enabled(s, step) && UncontestedStep(s, step)
    ensures WellFormed(s)
    ensures var t := Next(c, s, step, now);
      && (SolelyOwned(t, h) <==> !EndsItself(s, h, step) && !Overtaken(s, h, step))
      && (!SolelyOwned(t, h) ==> Crowded(t, h))
      && (EndsItself(s, h, step) ==> Retired(t, h))
  {
    hide Next, Fit, InNoQueue;
    FitIsWellFormed(s);
    if Overtaken(s, h, step) {
      OvertakenCrowds(c, s, h, step, now);
    } else {
      OwnershipKept(c, s, h, step, now);
    }
  }

  lemma NextTakes(c: Config, s: State, h: nat, task: nat, now: Time)
    requires WellFormed(s)
    ensures CanTake(s, h, task) ==> Next(c, s, Take(h, task), now) == TakeCommand(c, s, h, task, now)
    ensures CanComplete(s, h, task) ==> Next(c, s, Complete(h, task), now) == CompleteCommand(s, h, task)
  {
    hide TakeCommand, CompleteCommand;
  }

  // --------------------------------------------------------------------------------- after the end

  lemma OthersNamed(s: State, h: nat)
    requires WellFormed(s) && Retired(s, h)
    ensures forall id :: id in s.tracked ==> s.tracked[id] != h
  {
  }

  /** The object is as it was, out of reach of every id and of any new offer. */
  predicate LeftAlone(s: State, t: State, h: nat) {
    && h < |s.made| <= |t.made| && t.made[h] == s.made[h]
    && (forall id :: id in t.tracked ==> t.tracked[id] != h) && (OnOffer(t, h) ==> OnOffer(s, h))
  }

  lemma LeftAloneStays(s: State, t: State, h: nat)
    requires Retired(s, h) && LeftAlone(s, t, h)
    ensures Retired(t, h)
  {
  }

  lemma AnswerLeavesAlone(c: Config, s: State, h: nat, answer: Answer, now: Time)
    requires WellFormed(s) && Retired(s, h) && s.sweep.Offering? && !Overtaken(s, h, Answered(answer))
    ensures LeftAlone(s, AnswerOffer(c, s, answer, now), h)
  {
    hide NoteAbnormal, TakeOver, Unqueue;
    OthersNamed(s, h);
    var agent, k, id := s.sweep.agent, s.sweep.run, s.made[s.sweep.run].id;
    match answer
    case Accepted =>
      TakeOverFrame(s, k, s.sweep.provider.key);
      UnqueueFrame(TakeOver(s, k, s.sweep.provider.key), agent, id);
    case Refused(reason) => UnqueueFrame(SpawnFinisher(s, k, Fail(reason)), agent, id);
    case NoAnswer =>
    case Declined =>
  }

  lemma LateAckLeavesAlone(c: Config, s: State, h: nat, id: RunId, claimant: Key, now: Time)
    requires WellFormed(s) && Retired(s, h)
    ensures LeftAlone(s, AcceptLateAck(c, s, id, claimant, now), h)
  {
    hide NoteAbnormal, TakeOver, Unqueue;
    OthersNamed(s, h);
    if LateAckAllowed(s, id, claimant) {
      TakeOverFrame(s, s.tracked[id], claimant);
      UnqueueFrame(TakeOver(s, s.tracked[id], claimant), Named(s, id).agent, id);
    }
  }

  lemma PushLeavesAlone(c: Config, s: State, h: nat, id: RunId, cmd: Command, now: Time)
    requires WellFormed(s) && Retired(s, h)
    ensures LeftAlone(s, PushTo(c, s, id, cmd, now), h)
  {
    hide NoteAbnormal;
    OthersNamed(s, h);
  }

  lemma ExpireOneLeavesAlone(s: State, h: nat, agent: AgentRef, id: RunId, cutoff: Time)
    requires WellFormed(s) && Retired(s, h)
    ensures LeftAlone(s, ExpireOne(s, agent, id, cutoff), h)
  {
    hide Unqueue;
    OthersNamed(s, h);
    UnqueueFrame(s, agent, id);
  }

  lemma {:induction false} ExpireQueueLeavesAlone(s: State, h: nat, agent: AgentRef, ids: seq<RunId>, cutoff: Time)
    requires WellFormed(s) && Retired(s, h)
    ensures LeftAlone(s, ExpireQueue(s, agent, ids, cutoff), h)
    decreases |ids|
  {
    hide ExpireOne;
    OthersNamed(s, h);
    if ids != [] {
      ExpireOneLeavesAlone(s, h, agent, ids[0], cutoff);
      LeftAloneStays(s, ExpireOne(s, agent, ids[0], cutoff), h);
      ExpireQueueLeavesAlone(ExpireOne(s, agent, ids[0], cutoff), h, agent, ids[1..], cutoff);
    }
  }

  lemma {:induction false} ExpireAgentsLeavesAlone(s: State, h: nat, agents: seq<AgentRef>, cutoff: Time)
    requires WellFormed(s) && Retired(s, h)
    ensures LeftAlone(s, ExpireAgents(s, agents, cutoff), h)
    decreases |agents|
  {
    hide ExpireQueue;
    OthersNamed(s, h);
    if agents != [] {
      if agents[0] !in s.links {
        ExpireQueueLeavesAlone(s, h, agents[0], Queue(s, agents[0]), cutoff);
        LeftAloneStays(s, ExpireQueue(s, agents[0], Queue(s, agents[0]), cutoff), h);
        ExpireAgentsLeavesAlone(ExpireQueue(s, agents[0], Queue(s, agents[0]), cutoff), h, agents[1..], cutoff);
      } else {
        ExpireAgentsLeavesAlone(s, h, agents[1..], cutoff);
      }
    }
  }

  lemma DrainLeavesAlone(c: Config, s: State, h: nat, k: nat, now: Time)
    requires WellFormed(s) && Retired(s, h) && k < |s.made| && k != h
    ensures LeftAlone(s, PushTo(c, Drained(s, k), s.made[k].id, Fail(MALFORMED_REASON), now), h)
  {
    hide PushTo;
    OthersNamed(s, h);
    PushLeavesAlone(c, Drained(s, k), h, s.made[k].id, Fail(MALFORMED_REASON), now);
  }

  lemma TakeLeavesAlone(c: Config, s: State, h: nat, k: nat, task: nat, now: Time)
    requires WellFormed(s) && Retired(s, h) && CanTake(s, k, task)
    ensures LeftAlone(s, TakeCommand(c, s, k, task, now), h)
  {
    hide PushTo, Drained;
    OthersNamed(s, h);
    DrainLeavesAlone(c, s, h, k, now);
  }

  lemma EndLeavesAlone(s: State, h: nat, k: nat, r: RunRecord)
    requires WellFormed(s) && Retired(s, h) && k < |s.made| && k != h && r.id == s.made[k].id
    ensures LeftAlone(s, End(WithRun(s, k, r), k), h)
  {
    hide End;
    OthersNamed(s, h);
    EndEffect(WithRun(s, k, r), k);
  }

  lemma CompleteLeavesAlone(s: State, h: nat, k: nat, task: nat)
    requires WellFormed(s) && Retired(s, h) && CanComplete(s, k, task)
    ensures LeftAlone(s, CompleteCommand(s, k, task), h)
  {
    hide End;
    OthersNamed(s, h);
    EndLeavesAlone(s, h, k, s.made[k].(pipelines := RemoveAt(s.made[k].pipelines, task)));
  }

  lemma ShotLeavesAlone(s: State, h: nat, k: nat, task: nat)
    requires WellFormed(s) && Retired(s, h) && CanFinish(s, k, task)
    ensures LeftAlone(s, FinishShot(s, k, task), h)
  {
    hide End;
    EndLeavesAlone(s, h, k, s.made[k].(finishers := RemoveAt(s.made[k].finishers, task)));
  }

  lemma CancelLeavesAlone(s: State, h: nat, id: RunId)
    requires WellFormed(s) && Retired(s, h)
    ensures LeftAlone(s, CancelRun(s, id), h)
  {
    OthersNamed(s, h);
  }

  lemma EnqueueLeavesAlone(s: State, h: nat, id: RunId, agent: AgentRef, withHandlers: bool, now: Time)
    requires WellFormed(s) && Retired(s, h)
    ensures LeftAlone(s, EnqueueRun(s, id, agent, withHandlers, now), h)
  {
    OthersNamed(s, h);
  }

  lemma ScanLeavesAlone(s: State, h: nat)
    requires WellFormed(s) && Retired(s, h) && s.sweep.Scanning?
    ensures LeftAlone(s, ScanNext(s), h)
  {
    hide Offerable, HasRoom;
    OthersNamed(s, h);
  }

  lemma WakeLeavesAlone(c: Config, s: State, h: nat, order: seq<AgentRef>, now: Time)
    requires WellFormed(s) && Retired(s, h)
    ensures LeftAlone(s, WakeUp(c, s, order, now), h)
  {
    hide ExpireAgents;
    ExpireAgentsLeavesAlone(s, h, order, now - c.unservedTimeout);
  }

  /** No step touches a run that has ended, but the acceptance or refusal of an offer of it still outstanding. */
  lemma RetiredStays(c: Config, s: State, h: nat, step: Step, now: Time)
    requires WellFormed(s) && Retired(s, h) && Enabled(s, step) && !Overtaken(s, h, step)
    ensures Retired(Next(c, s, step, now), h) && Next(c, s, step, now).made[h] == s.made[h]
  {
    hide WakeUp, ScanNext, AnswerOffer, PushTo, AcceptLateAck, TakeCommand, CompleteCommand, FinishShot,
      EnqueueRun, CancelRun;
    match step
    case Start => OthersNamed(s, h);
    case Enqueue(id, agent, withHandlers) => EnqueueLeavesAlone(s, h, id, agent, withHandlers, now);
    case Attach(_, _) => OthersNamed(s, h);
    case Detach(_) => OthersNamed(s, h);
    case Wake(order) => WakeLeavesAlone(c, s, h, order, now);
    case Scan => ScanLeavesAlone(s, h);
    case Answered(answer) => AnswerLeavesAlone(c, s, h, answer, now);
    case Push(id, cmd) => PushLeavesAlone(c, s, h, id, cmd, now);
    case Cancel(id) => CancelLeavesAlone(s, h, id);
    case LateAck(id, claimant) => LateAckLeavesAlone(c, s, h, id, claimant, now);
    case Take(k, task) => TakeLeavesAlone(c, s, h, k, task, now);
    case Complete(k, task) => CompleteLeavesAlone(s, h, k, task);
    case FinishOneShot(k, task) => ShotLeavesAlone(s, h, k, task);
  }
}

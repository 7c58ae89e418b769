/**
 When a claim leaves a run to one pipeline, for how long, and the three ways in which it does not: an offer accepted
 after the run's cancellation, and one accepted or refused after a late ack.
 */
module BrokerClaims {
  import opened Basics
  import opened Events
  import opened BrokerSpec
  import opened BrokerSound
  import opened BrokerStranded
  import opened BrokerOrder
  import opened BrokerOvertaken
  import opened BrokerOwnership
  import BrokerContested

  /** Callers enqueue only ids that nothing acts under and that stand in no queue. */
  ghost predicate TidyExecution(c: Config, states: seq<State>, moments: seq<Moment>) {
    UncontestedExecution(c, states, moments) && UnqueuedExecution(c, states, moments)
  }

  ghost predicate Tidy(s: State) {
    Sound(s) && Fit(s) && InOrder(s)
  }

  lemma AlwaysTidy(c: Config, states: seq<State>, moments: seq<Moment>, n: nat)
    requires TidyExecution(c, states, moments) && n < |states|
    ensures Tidy(states[n])
  {
    AlwaysSound(c, states, moments, n);
    AlwaysFit(c, states, moments, n);
    AlwaysInOrder(c, states, moments, n);
  }

  /** The step makes `h` somebody's: an accepted offer of it, or a late ack under its id. */
  predicate Claims(s: State, step: Step, h: nat)
    requires WellFormed(s)
  {
    || (step == Answered(Accepted) && OnOffer(s, h))
    || (step.LateAck? && LateAckAllowed(s, step.id, step.claimant) && s.tracked[step.id] == h)
  }

  function Claimant(s: State, step: Step): Key
    requires step.LateAck? || s.sweep.Offering?
  {
    if step.LateAck? then step.claimant else s.sweep.provider.key
  }

  /** The run as the claim finds it is tracked, unclaimed and without a one-shot. */
  predicate Claimable(s: State, h: nat) {
    IsTracked(s, h) && s.made[h].claimedBy.None? && s.made[h].finishers == []
  }

  /** A tracked run stands at most once in a queue, and only in its own agent's. */
  lemma OneEntry(s: State, h: nat, a: AgentRef)
    requires InOrder(s) && IsTracked(s, h) && s.made[h].id in Queue(s, a)
    ensures a == s.made[h].agent && NoDuplicates(Queue(s, a))
  {
    assert Ordered(s, a, Queue(s, a));
    hide NewestOf, OfferedFirst;
    var i :| 0 <= i < |Queue(s, a)| && Queue(s, a)[i] == s.made[h].id;
  }

  lemma RemovedOnce<T>(s: seq<T>, x: T)
    requires NoDuplicates(s)
    ensures x !in RemoveFirst(s, x)
  {
    if x in s {
      var i := RemoveFirstSplits(s, x);
    } else {
      RemoveFirstAbsent(s, x);
    }
  }

  lemma UnqueueLeavesNone(s: State, h: nat)
    requires InOrder(s) && IsTracked(s, h)
    ensures InNoQueue(Unqueue(s, s.made[h].agent, s.made[h].id), s.made[h].id)
  {
    hide InOrder, RemoveFirst;
    var agent, id := s.made[h].agent, s.made[h].id;
    var t := Unqueue(s, agent, id);
    forall a | a in t.pending ensures id !in t.pending[a] {
      if id in Queue(s, a) {
        OneEntry(s, h, a);
        RemovedOnce(Queue(s, a), id);
      } else if a == agent {
        RemoveFirstMembers(Queue(s, a), id);
      }
    }
  }

  /** A run is tracked under a handler, has pipelines exactly if it is claimed, and has not ended. */
  lemma TrackedRun(s: State, h: nat)
    requires Sound(s) && Fit(s) && IsTracked(s, h)
    ensures s.made[h].id in s.handlers && !s.made[h].ended
    ensures s.made[h].claimedBy.Some? <==> s.made[h].pipelines != []
  {
    assert RunFit(s, h) && SoundRun(s.made[h], s.capacity);
  }

  lemma TakenOver(s: State, h: nat, key: Key)
    requires WellFormed(s) && h < |s.made|
    ensures var r, t := s.made[h], TakeOver(s, h, key);
      && t.tracked == s.tracked && t.pending == s.pending && t.sweep == s.sweep && |t.made| == |s.made|
      && t.handlers == s.handlers
      && t.made[h] == r.(claimedBy := Some(key), inQueue := r.inQueue + [Claim],
                         pipelines := if r.id in s.handlers then r.pipelines + [Waiting] else r.pipelines)
  {
  }

  /** What an acceptance leaves of the run on offer. */
  lemma AcceptedRun(s: State, h: nat)
    requires InOrder(s) && OnOffer(s, h)
    ensures var r, t := s.made[h], OfferAccepted(s);
      && t.tracked == s.tracked && t.handlers == s.handlers && |t.made| == |s.made| && t.sweep.Scanning?
      && t.made[h] == r.(claimedBy := Some(s.sweep.provider.key), inQueue := r.inQueue + [Claim],
                         pipelines := if r.id in s.handlers then r.pipelines + [Waiting] else r.pipelines)
      && (IsTracked(s, h) ==> InNoQueue(t, r.id))
  {
    hide TakeOver, Unqueue, InNoQueue;
    OrderIsWellFormed(s);
    var key, agent, id := s.sweep.provider.key, s.sweep.agent, s.made[h].id;
    assert agent == s.made[h].agent;
    hide InOrder;
    TakenOver(s, h, key);
    var u := TakeOver(s, h, key);
    UnqueueFrame(u, agent, id);
    var v := Unqueue(u, agent, id);
    if IsTracked(s, h) {
      UnqueueLeavesNone(s, h);
      SameQueues(Unqueue(s, agent, id), v, id) by { SameUnqueue(s, u, agent, id); }
      SameQueues(v, OfferAccepted(s), id);
    }
  }

  lemma SameUnqueue(s: State, t: State, agent: AgentRef, id: RunId)
    requires t.pending == s.pending
    ensures Unqueue(t, agent, id).pending == Unqueue(s, agent, id).pending
  {
  }

  /** What a late ack leaves of the run its id names. */
  lemma AckedRun(c: Config, s: State, id: RunId, claimant: Key, now: Time)
    requires InOrder(s) && WellFormed(s) && LateAckAllowed(s, id, claimant)
    ensures var h, t := s.tracked[id], AcceptLateAck(c, s, id, claimant, now);
      var r := s.made[h];
      && t.tracked == s.tracked && t.handlers == s.handlers && |t.made| == |s.made| && t.sweep == s.sweep
      && t.made[h] == r.(claimedBy := Some(claimant), inQueue := r.inQueue + [Claim],
                         pipelines := if r.id in s.handlers then r.pipelines + [Waiting] else r.pipelines)
      && InNoQueue(t, r.id)
  {
    hide TakeOver, Unqueue, InNoQueue, NoteAbnormal, InOrder;
    var h := s.tracked[id];
    var agent := s.made[h].agent;
    TakenOver(s, h, claimant);
    var u := TakeOver(s, h, claimant);
    UnqueueFrame(u, agent, id);
    var v := Unqueue(u, agent, id);
    UnqueueLeavesNone(s, h);
    SameUnqueue(s, u, agent, id);
    SameQueues(Unqueue(s, agent, id), v, id);
    SameQueues(v, AcceptLateAck(c, s, id, claimant, now), id);
  }

  lemma NextCancels(c: Config, s: State, id: RunId, now: Time)
    requires WellFormed(s)
    ensures Next(c, s, Cancel(id), now) == CancelRun(s, id)
  {
    hide CancelRun;
  }

  lemma NextAcks(c: Config, s: State, id: RunId, claimant: Key, now: Time)
    requires WellFormed(s)
    ensures Next(c, s, LateAck(id, claimant), now) == AcceptLateAck(c, s, id, claimant, now)
  {
    hide AcceptLateAck;
  }

  lemma NextAccepts(c: Config, s: State, now: Time)
    requires WellFormed(s) && s.sweep.Offering?
    ensures Next(c, s, Answered(Accepted), now) == OfferAccepted(s)
  {
    hide OfferAccepted;
  }

  /** A claim leaves the run to one pipeline if and only if before it the run was tracked, unclaimed and without a
      one-shot; otherwise several tasks act for it from then on, or it has ended. */
  lemma ClaimOwnsIff(c: Config, s: State, step: Step, now: Time, h: nat)
    requires Tidy(s) && Enabled(s, step) && Claims(s, step, h)
    ensures h < |s.made|
    ensures var t := Next(c, s, step, now);
      (SolelyOwned(t, h) <==> Claimable(s, h)) && (!SolelyOwned(t, h) ==> Crowded(t, h))
  {
    OrderIsWellFormed(s);
    hide Next, OfferAccepted, AcceptLateAck, SolelyOwned, Tidy, Crowded;
    if step.LateAck? {
      NextAcks(c, s, step.id, step.claimant, now);
      AckOwnsIff(c, s, step.id, step.claimant, now);
    } else {
      NextAccepts(c, s, now);
      AcceptanceOwnsIff(s, h);
    }
  }

  lemma AckOwnsIff(c: Config, s: State, id: RunId, claimant: Key, now: Time)
    requires Tidy(s) && LateAckAllowed(s, id, claimant)
    ensures var h, t := s.tracked[id], AcceptLateAck(c, s, id, claimant, now);
      (SolelyOwned(t, h) <==> Claimable(s, h)) && (!SolelyOwned(t, h) ==> Crowded(t, h))
  {
    OrderIsWellFormed(s);
    hide AcceptLateAck, InNoQueue, InOrder, Fit, Sound;
    TrackedRun(s, s.tracked[id]);
    AckedRun(c, s, id, claimant, now);
  }

  lemma AcceptanceOwnsIff(s: State, h: nat)
    requires Tidy(s) && OnOffer(s, h)
    ensures h < |s.made|
    ensures var t := OfferAccepted(s);
      (SolelyOwned(t, h) <==> Claimable(s, h)) && (!SolelyOwned(t, h) ==> Crowded(t, h))
  {
    OrderIsWellFormed(s);
    RunIsFit(s, h);
    hide OfferAccepted, InNoQueue, InOrder, Fit, Sound;
    if IsTracked(s, h) {
      TrackedRun(s, h);
    }
    AcceptedRun(s, h);
  }

  /** Such a claim starts the run's one pipeline, with the claim last in its queue. */
  lemma ClaimStarts(c: Config, s: State, step: Step, now: Time, h: nat)
    requires Tidy(s) && Enabled(s, step) && Claims(s, step, h) && Claimable(s, h)
    ensures var t := Next(c, s, step, now);
      && SolelyOwned(t, h) && t.made[h].id == s.made[h].id && t.made[h].claimedBy == Some(Claimant(s, step))
      && t.made[h].pipelines == [Waiting] && t.made[h].inQueue == s.made[h].inQueue + [Claim]
  {
    OrderIsWellFormed(s);
    ClaimOwnsIff(c, s, step, now, h);
    hide Next, OfferAccepted, AcceptLateAck, Tidy, SolelyOwned;
    if step.LateAck? {
      NextAcks(c, s, step.id, step.claimant, now);
      AckStarts(c, s, step.id, step.claimant, now);
    } else {
      NextAccepts(c, s, now);
      AcceptanceStarts(s, h);
    }
  }

  lemma AckStarts(c: Config, s: State, id: RunId, claimant: Key, now: Time)
    requires Tidy(s) && LateAckAllowed(s, id, claimant)
    ensures var h, t := s.tracked[id], AcceptLateAck(c, s, id, claimant, now);
      && |t.made| == |s.made|
      && t.made[h] == s.made[h].(claimedBy := Some(claimant), inQueue := s.made[h].inQueue + [Claim],
                                 pipelines := [Waiting])
  {
    OrderIsWellFormed(s);
    hide AcceptLateAck, InNoQueue, InOrder, Fit, Sound;
    TrackedRun(s, s.tracked[id]);
    AckedRun(c, s, id, claimant, now);
  }

  lemma AcceptanceStarts(s: State, h: nat)
    requires Tidy(s) && OnOffer(s, h) && Claimable(s, h)
    ensures var t := OfferAccepted(s);
      && |t.made| == |s.made|
      && t.made[h] == s.made[h].(claimedBy := Some(s.sweep.provider.key), inQueue := s.made[h].inQueue + [Claim],
                                 pipelines := [Waiting])
  {
    hide OfferAccepted, InNoQueue, InOrder, Fit, Sound;
    TrackedRun(s, h);
    AcceptedRun(s, h);
  }

  /** Whatever happens in between, a claimed run is solely owned at a later moment if and only if it was tracked,
      unclaimed and without a one-shot when it was claimed, its own pipeline has not ended it since, and no offer of
      it has been accepted or refused since. */
  lemma ClaimLasts(c: Config, states: seq<State>, moments: seq<Moment>, i: nat, n: nat, h: nat)
    requires TidyExecution(c, states, moments) && i < n < |states|
    requires Claims(states[i], moments[i].step, h)
    ensures SolelyOwned(states[n], h) <==> Claimable(states[i], h) && NeverEnds(states, moments, h, i + 1, n)
    ensures Claimable(states[i], h) && NeverOvertaken(states, moments, h, i + 1, n) && !SolelyOwned(states[n], h)
            ==> Retired(states[n], h)
  {
    AlwaysTidy(c, states, moments, i);
    assert Happens(c, states[i], moments[i], states[i + 1]);
    ClaimOwnsIff(c, states[i], moments[i].step, moments[i].at, h);
    hide Next, Enabled, SolelyOwned, Claimable, Retired, NeverEnds, NeverOvertaken, Tidy, Claims, Crowded;
    if Claimable(states[i], h) {
      OwnedIffNeitherEndedNorOvertaken(c, states, moments, i + 1, n, h);
    } else {
      CrowdedForGood(c, states, moments, i + 1, n, h);
      CrowdedIsNotOwned(states[n], h);
    }
  }

  // ------------------------------------------------------------------ the claims that do not last

  lemma PushUnheard(c: Config, s: State, id: RunId, cmd: Command, now: Time)
    requires WellFormed(s) && id !in s.tracked
    ensures PushTo(c, s, id, cmd, now) == s
  {
  }

  /** A claimed run with a one-shot still pending may be ended by it at once, and is deaf from then on. */
  lemma ShotCutsOff(c: Config, t: State, h: nat, now: Time)
    requires WellFormed(t) && h < |t.made| && t.made[h].finishers != []
    ensures var u := Next(c, t, FinishOneShot(h, 0), now);
      && |u.made| == |t.made| && u.made[h].ended && t.made[h].id !in u.tracked
      && u.made[h] == t.made[h].(ended := true, finishers := RemoveAt(t.made[h].finishers, 0))
      && forall cmd, later :: PushTo(c, u, t.made[h].id, cmd, later) == u
  {
    hide End;
    EndEffect(WithRun(t, h, t.made[h].(finishers := RemoveAt(t.made[h].finishers, 0))), h);
    var u := FinishShot(t, h, 0);
    forall cmd, later ensures PushTo(c, u, t.made[h].id, cmd, later) == u {
      PushUnheard(c, u, t.made[h].id, cmd, later);
    }
  }

  /** A run cancelled, refused or expired before it is accepted: its one-shot ends its stream and forgets it while
      its pipeline has not read the claim, and nothing pushed under its id is heard any more. */
  lemma AcceptedWithAShotIsCutOff(c: Config, s: State, h: nat, now: Time)
    requires Tidy(s) && OnOffer(s, h) && IsTracked(s, h)
    requires s.made[h].claimedBy.None? && s.made[h].finishers != []
    ensures var t := OfferAccepted(s);
      && CanFinish(t, h, 0)
      && var u := Next(c, t, FinishOneShot(h, 0), now);
      && h < |u.made| && u.made[h].claimedBy == Some(s.sweep.provider.key) && u.made[h].id == s.made[h].id
      && u.made[h].ended && s.made[h].id !in u.tracked
      && u.made[h].pipelines == [Waiting] && u.made[h].inQueue == s.made[h].inQueue + [Claim]
      && forall cmd, later :: PushTo(c, u, s.made[h].id, cmd, later) == u
  {
    TrackedRun(s, h);
    OrderIsWellFormed(s);
    hide OfferAccepted, InNoQueue, Tidy, FinishShot, PushTo, Next;
    assert InOrder(s) by { TidyIsInOrder(s); }
    AcceptedRun(s, h);
    ShotCutsOff(c, OfferAccepted(s), h, now);
  }

  lemma TidyIsInOrder(s: State)
    requires Tidy(s)
    ensures InOrder(s)
  {
  }

  lemma SecondPipeline(t: State, h: nat)
    requires InOrder(t) && OnOffer(t, h) && IsTracked(t, h) && t.made[h].id in t.handlers
    requires t.made[h].pipelines == [Waiting]
    ensures var u := OfferAccepted(t);
      && IsTracked(u, h)
      && u.made[h] == t.made[h].(claimedBy := Some(t.sweep.provider.key), pipelines := [Waiting, Waiting],
                                 inQueue := t.made[h].inQueue + [Claim])
  {
    hide InOrder, OfferAccepted, InNoQueue;
    AcceptedRun(t, h);
  }

  lemma AckKeepsOffer(c: Config, s: State, h: nat, claimant: Key, now: Time)
    requires Tidy(s) && OnOffer(s, h) && IsTracked(s, h) && LateAckAllowed(s, s.made[h].id, claimant)
    ensures var t := AcceptLateAck(c, s, s.made[h].id, claimant, now);
      && InOrder(t) && OnOffer(t, h) && IsTracked(t, h) && s.made[h].id in t.handlers && t.sweep == s.sweep
  {
    OrderIsWellFormed(s);
    OrderLateAck(c, s, s.made[h].id, claimant, now);
    hide AcceptLateAck, InNoQueue, InOrder, Fit, Sound;
    TrackedRun(s, h);
    AckedRun(c, s, s.made[h].id, claimant, now);
  }

  /** A late ack during an offer that is then accepted: two pipelines read one queue that holds two claims. */
  lemma AckedOfferHasTwoPipelines(c: Config, s: State, h: nat, claimant: Key, now: Time)
    requires Tidy(s) && OnOffer(s, h) && IsTracked(s, h) && LateAckAllowed(s, s.made[h].id, claimant)
    ensures var t := AcceptLateAck(c, s, s.made[h].id, claimant, now);
      && t.sweep.Offering?
      && var u := OfferAccepted(t);
      && IsTracked(u, h)
      && u.made[h] == s.made[h].(claimedBy := Some(s.sweep.provider.key), pipelines := [Waiting, Waiting],
                                 inQueue := s.made[h].inQueue + [Claim] + [Claim])
  {
    OrderIsWellFormed(s);
    hide OfferAccepted, AcceptLateAck, Tidy, InOrder, LateAckAllowed;
    AckKeepsOffer(c, s, h, claimant, now);
    AckStarts(c, s, s.made[h].id, claimant, now);
    SecondPipeline(AcceptLateAck(c, s, s.made[h].id, claimant, now), h);
  }

  /** A late ack during an offer that is then refused: a one-shot stands beside the pipeline, and may end the run at
      once. */
  lemma AckedOfferRefusedHasAShot(c: Config, s: State, h: nat, claimant: Key, reason: string, now: Time)
    requires Tidy(s) && OnOffer(s, h) && Claimable(s, h) && LateAckAllowed(s, s.made[h].id, claimant)
    ensures var t := AcceptLateAck(c, s, s.made[h].id, claimant, now);
      && t.sweep.Offering?
      && var u := OfferRefused(t, reason);
      && IsTracked(u, h)
      && u.made[h] == s.made[h].(claimedBy := Some(claimant), pipelines := [Waiting], finishers := [Fail(reason)],
                                 inQueue := s.made[h].inQueue + [Claim])
  {
    OrderIsWellFormed(s);
    hide AcceptLateAck, OfferRefused, Tidy, InOrder, LateAckAllowed, Fit, SolelyOwned;
    AckKeepsOffer(c, s, h, claimant, now);
    AckStarts(c, s, s.made[h].id, claimant, now);
    AckOwnsIff(c, s, s.made[h].id, claimant, now);
    AckIsFit(c, s, s.made[h].id, claimant, now);
    RefusalCrowds(AcceptLateAck(c, s, s.made[h].id, claimant, now), h, reason);
  }

  lemma AckIsFit(c: Config, s: State, id: RunId, claimant: Key, now: Time)
    requires Tidy(s)
    ensures WellFormed(s) && Fit(AcceptLateAck(c, s, id, claimant, now))
  {
    hide AcceptLateAck, Fit, InOrder;
    OrderIsWellFormed(s);
    FitLateAck(c, s, id, claimant, now);
  }

  // ------------------------------------------------------- all three happen to a run just enqueued

  /** An execution goes on by any step but an enqueue. */
  lemma OneMore(c: Config, states: seq<State>, moments: seq<Moment>, step: Step)
    returns (longer: seq<State>, later: seq<Moment>)
    requires TidyExecution(c, states, moments)
    requires var s := states[|moments|]; WellFormed(s) && Enabled(s, step) && !step.Enqueue?
    ensures TidyExecution(c, longer, later) && |later| == |moments| + 1 && |longer| == |later| + 1
    ensures longer[|later|] == Next(c, states[|moments|], step, 0) && Tidy(longer[|later|])
  {
    hide Next, Enabled, Tidy;
    longer, later := states + [Next(c, states[|moments|], step, 0)], moments + [Moment(step, 0)];
    AlwaysTidy(c, longer, later, |later|);
  }

  const AGENT := BrokerContested.AGENT
  const LINK := BrokerContested.LINK

  const UNTIL_OFFERED: seq<Step> := [Start, Attach(LINK, {"n"}), Enqueue("r", AGENT, true), Wake([AGENT]), Scan]

  function UntilOffered(i: nat): State {
    if i < 4 then BrokerContested.At(i)
    else
      BrokerContested.Served([BrokerContested.RunIn([], false)], true, map[AGENT := ["r"]],
                             if i == 4 then Scanning([AGENT], false) else Offering(AGENT, 0, LINK, [], false), false)
  }

  lemma WakesUp(c: Config)
    ensures Enabled(UntilOffered(3), Wake([AGENT])) && Next(c, UntilOffered(3), Wake([AGENT]), 0) == UntilOffered(4)
  {
    var cutoff := 0 - c.unservedTimeout;
    assert ExpireAgents(UntilOffered(3), [AGENT][1..], cutoff) == UntilOffered(3);
    assert ExpireAgents(UntilOffered(3), [AGENT], cutoff) == UntilOffered(3);
  }

  lemma ScanOffers(s: State, agent: AgentRef, id: RunId)
    requires WellFormed(s) && s.sweep == Scanning([agent], false)
    requires agent in s.links && agent in s.pending && s.pending[agent] == [id] && HasRoom(s, s.links[agent].key)
    requires id in s.tracked && !Named(s, id).cancelRequested
    ensures ScanNext(s) == s.(sweep := Offering(agent, s.tracked[id], s.links[agent], [], false))
  {
    hide HasRoom;
    assert [agent][1..] == [] && [id][0] == id;
    assert Offerable(s, [id]) == [id];
    hide Offerable;
    assert s.pending[agent := [id]] == s.pending;
  }

  lemma OffersTheRun(c: Config)
    ensures Enabled(UntilOffered(4), Scan) && Next(c, UntilOffered(4), Scan, 0) == UntilOffered(5)
  {
    hide ScanNext;
    ScanOffers(UntilOffered(4), AGENT, "r");
  }

  /** "r" has just been enqueued and is on offer to the provider that serves its agent. */
  lemma OfferIsReached(c: Config) returns (states: seq<State>, moments: seq<Moment>)
    ensures TidyExecution(c, states, moments) && |states| == |moments| + 1
    ensures states[|moments|] == UntilOffered(5) && Tidy(states[|moments|])
  {
    hide Next;
    states := seq(6, i requires 0 <= i < 6 => UntilOffered(i));
    moments := seq(5, i requires 0 <= i < 5 => Moment(UNTIL_OFFERED[i], 0));
    BrokerContested.ScenarioStarts(c);
    BrokerContested.ScenarioEnqueues(c);
    WakesUp(c);
    OffersTheRun(c);
    AlwaysTidy(c, states, moments, 5);
    hide Tidy;
  }

  lemma CancelSpawns(s: State, h: nat)
    requires WellFormed(s) && IsTracked(s, h) && s.made[h].claimedBy.None?
    ensures var r, t := s.made[h], CancelRun(s, s.made[h].id);
      && t.tracked == s.tracked && t.sweep == s.sweep && |t.made| == |s.made|
      && t.made[h] == r.(cancelRequested := true, finishers := r.finishers + [RequestCancel])
  {
  }

  /** Cancelled while on offer, then accepted: the provider holds a run that has ended and that nothing it reports
      can reach, and the claim in its queue is never read. */
  lemma CutOffHappens(c: Config) returns (states: seq<State>, moments: seq<Moment>)
    ensures TidyExecution(c, states, moments)
    ensures var s := states[|moments|];
      && WellFormed(s) && |s.made| > 0 && s.made[0].id == "r" && "r" !in s.tracked
      && s.made[0].claimedBy == Some("k") && s.made[0].ended
      && s.made[0].pipelines == [Waiting] && s.made[0].inQueue == [Claim]
      && forall cmd, now :: PushTo(c, s, "r", cmd, now) == s
  {
    hide TidyExecution, OfferAccepted, PushTo, Next, Tidy, CancelRun;
    states, moments := OfferIsReached(c);
    var offered := states[|moments|];
    CancelSpawns(offered, 0);
    NextCancels(c, offered, "r", 0);
    states, moments := OneMore(c, states, moments, Cancel("r"));
    var s := states[|moments|];
    NextAccepts(c, s, 0);
    AcceptedWithAShotIsCutOff(c, s, 0, 0);
    states, moments := OneMore(c, states, moments, Answered(Accepted));
    states, moments := OneMore(c, states, moments, FinishOneShot(0, 0));
  }

  /** Reported for while on offer, then accepted: two pipelines on one queue, which holds two claims. */
  lemma TwoPipelinesHappen(c: Config) returns (states: seq<State>, moments: seq<Moment>)
    ensures TidyExecution(c, states, moments)
    ensures var s := states[|moments|];
      && |s.made| > 0 && IsTracked(s, 0) && s.made[0].claimedBy == Some("k")
      && s.made[0].pipelines == [Waiting, Waiting] && s.made[0].inQueue == [Claim, Claim]
  {
    hide TidyExecution, OfferAccepted, AcceptLateAck, Next, Tidy;
    states, moments := OfferIsReached(c);
    var offered := states[|moments|];
    AckedOfferHasTwoPipelines(c, offered, 0, "k", 0);
    NextAcks(c, offered, "r", "k", 0);
    states, moments := OneMore(c, states, moments, LateAck("r", "k"));
    NextAccepts(c, states[|moments|], 0);
    states, moments := OneMore(c, states, moments, Answered(Accepted));
  }

  /** Reported for while on offer, then refused: the provider holds a run that has ended, its claim unread. */
  lemma RefusalAfterAckHappens(c: Config) returns (states: seq<State>, moments: seq<Moment>)
    ensures TidyExecution(c, states, moments)
    ensures var s := states[|moments|];
      && WellFormed(s) && |s.made| > 0 && s.made[0].id == "r" && "r" !in s.tracked
      && s.made[0].claimedBy == Some("k") && s.made[0].ended
      && s.made[0].pipelines == [Waiting] && s.made[0].inQueue == [Claim]
      && forall cmd, now :: PushTo(c, s, "r", cmd, now) == s
  {
    hide TidyExecution, OfferRefused, AcceptLateAck, PushTo, Next, Tidy;
    states, moments := OfferIsReached(c);
    var offered := states[|moments|];
    AckedOfferRefusedHasAShot(c, offered, 0, "k", "no", 0);
    NextAcks(c, offered, "r", "k", 0);
    states, moments := OneMore(c, states, moments, LateAck("r", "k"));
    NextRefuses(c, states[|moments|], "no", 0);
    states, moments := OneMore(c, states, moments, Answered(Refused("no")));
    ShotCutsOff(c, states[|moments|], 0, 0);
    states, moments := OneMore(c, states, moments, FinishOneShot(0, 0));
  }

  lemma NextRefuses(c: Config, s: State, reason: string, now: Time)
    requires WellFormed(s) && s.sweep.Offering?
    ensures Next(c, s, Answered(Refused(reason)), now) == OfferRefused(s, reason)
  {
    hide OfferRefused;
  }
}

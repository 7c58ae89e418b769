/** What every step of the dispatch protocol keeps, whatever ids callers enqueue. */
module BrokerSound {
  import opened Basics
  import opened Events
  import opened BrokerSpec

  /** One run object: a pipeline only ever runs for a claimed run, and a claimant has a capacity bucket. */
  ghost predicate SoundRun(r: RunRecord, capacity: map<Key, Capacity>) {
    && (r.pipelines != [] ==> r.claimedBy.Some?)
    && (r.claimedBy.Some? ==> r.claimedBy.value in capacity)
  }

  /** Connections serve only refs of their own key, and every provider that is served or being asked has a bucket. */
  ghost predicate SoundLinks(s: State) {
    && (forall a :: a in s.links ==> s.links[a].key == a.providerKey && a.providerKey in s.capacity)
    && (s.sweep.Offering? ==>
          s.sweep.provider.key == s.sweep.agent.providerKey && s.sweep.provider.key in s.capacity)
  }

  ghost predicate Sound(s: State) {
    && WellFormed(s)
    && (forall h :: 0 <= h < |s.made| ==> SoundRun(s.made[h], s.capacity))
    && SoundLinks(s)
  }

  lemma SoundEnd(s: State, h: nat)
    requires Sound(s) && h < |s.made|
    ensures Sound(End(s, h))
    ensures End(s, h).made == s.made[h := s.made[h].(ended := true)]
    ensures End(s, h).capacity.Keys == s.capacity.Keys
  {
  }

  lemma SoundTakeOver(s: State, h: nat, key: Key)
    requires Sound(s) && h < |s.made| && key in s.capacity
    ensures Sound(TakeOver(s, h, key))
  {
  }

  lemma SoundNote(c: Config, s: State, key: Key, counter: Counter, now: Time)
    requires Sound(s)
    ensures Sound(NoteAbnormal(c, s, key, counter, now))
  {
  }

  lemma SoundPush(c: Config, s: State, id: RunId, cmd: Command, now: Time)
    requires Sound(s)
    ensures Sound(PushTo(c, s, id, cmd, now))
  {
    if id in s.tracked && cmd.Fail? && Named(s, id).claimedBy.Some? {
      SoundNote(c, s, Named(s, id).claimedBy.value, Abandoned, now);
    }
  }

  lemma SoundDrained(s: State, h: nat)
    requires Sound(s) && h < |s.made|
    ensures Sound(Drained(s, h))
  {
  }

  lemma SoundTake(c: Config, s: State, h: nat, task: nat, now: Time)
    requires Sound(s) && CanTake(s, h, task)
    ensures Sound(TakeCommand(c, s, h, task, now))
  {
    hide PushTo;
    if Malformed(s.made[h].inQueue[0]) {
      SoundDrained(s, h);
      SoundPush(c, Drained(s, h), s.made[h].id, Fail(MALFORMED_REASON), now);
    }
  }

  /** What expiry may do: some entries leave queues of unserved agents, their runs getting a finisher. */
  ghost predicate Expiry(s: State, t: State) {
    && t == s.(made := t.made, pending := t.pending)
    && t.pending.Keys == s.pending.Keys
    && |t.made| == |s.made|
    && (forall h :: 0 <= h < |s.made| ==> Finished(s.made[h], t.made[h]))
    && (forall a, id :: id in Queue(t, a) ==> id in Queue(s, a))
    && (forall a, id :: id in Queue(s, a) && id !in Queue(t, a) ==> Left(s, t, a, id))
  }

  ghost predicate Finished(r: RunRecord, q: RunRecord) {
    q == r.(finishers := q.finishers) && r.finishers <= q.finishers
  }

  ghost predicate Left(s: State, t: State, a: AgentRef, id: RunId) {
    && a !in s.links && id in s.tracked && s.tracked[id] < |t.made|
    && Fail(NO_PROVIDER_REASON) in t.made[s.tracked[id]].finishers
  }

  lemma ExpiryCompose(s: State, t: State, u: State)
    requires Expiry(s, t) && Expiry(t, u)
    ensures Expiry(s, u)
  {
    forall h | 0 <= h < |s.made| ensures Finished(s.made[h], u.made[h]) {
      assert Finished(s.made[h], t.made[h]) && Finished(t.made[h], u.made[h]);
    }
    forall a, id | id in Queue(s, a) && id !in Queue(u, a) ensures Left(s, u, a, id) {
      if id in Queue(t, a) {
        assert Left(t, u, a, id);
      } else {
        assert Left(s, t, a, id);
        assert Finished(t.made[s.tracked[id]], u.made[s.tracked[id]]);
      }
    }
  }

  lemma ExpireOneIsExpiry(s: State, agent: AgentRef, id: RunId, cutoff: Time)
    requires WellFormed(s) && agent !in s.links
    ensures Expiry(s, ExpireOne(s, agent, id, cutoff))
  {
    hide RemoveFirst;
    RemoveFirstMembers(Queue(s, agent), id);
    var t := ExpireOne(s, agent, id, cutoff);
    assert forall a :: a != agent ==> Queue(t, a) == Queue(s, a);
    assert Queue(t, agent) == Queue(s, agent) || Queue(t, agent) == RemoveFirst(Queue(s, agent), id);
  }

  lemma {:induction false} ExpireQueueIsExpiry(s: State, agent: AgentRef, ids: seq<RunId>, cutoff: Time)
    requires WellFormed(s) && agent !in s.links
    ensures Expiry(s, ExpireQueue(s, agent, ids, cutoff))
    decreases |ids|
  {
    if ids != [] {
      var t := ExpireOne(s, agent, ids[0], cutoff);
      ExpireOneIsExpiry(s, agent, ids[0], cutoff);
      ExpireQueueIsExpiry(t, agent, ids[1..], cutoff);
      ExpiryCompose(s, t, ExpireQueue(t, agent, ids[1..], cutoff));
    }
  }

  lemma {:induction false} ExpireAgentsIsExpiry(s: State, agents: seq<AgentRef>, cutoff: Time)
    requires WellFormed(s)
    ensures Expiry(s, ExpireAgents(s, agents, cutoff))
    decreases |agents|
  {
    if agents != [] {
      var t := if agents[0] in s.links then s else ExpireQueue(s, agents[0], Queue(s, agents[0]), cutoff);
      if agents[0] !in s.links {
        ExpireQueueIsExpiry(s, agents[0], Queue(s, agents[0]), cutoff);
      }
      ExpireAgentsIsExpiry(t, agents[1..], cutoff);
      ExpiryCompose(s, t, ExpireAgents(t, agents[1..], cutoff));
    }
  }

  lemma SoundWake(c: Config, s: State, order: seq<AgentRef>, now: Time)
    requires Sound(s)
    ensures Sound(WakeUp(c, s, order, now))
  {
    var t := ExpireAgents(s, order, now - c.unservedTimeout);
    ExpireAgentsIsExpiry(s, order, now - c.unservedTimeout);
    forall h | 0 <= h < |t.made| ensures SoundRun(t.made[h], t.capacity) {
      assert Finished(s.made[h], t.made[h]) && SoundRun(s.made[h], s.capacity);
    }
  }

  lemma SoundAccepted(s: State)
    requires Sound(s) && s.sweep.Offering?
    ensures Sound(OfferAccepted(s))
  {
    hide TakeOver;
    SoundTakeOver(s, s.sweep.run, s.sweep.provider.key);
  }

  lemma SoundDeclined(c: Config, s: State, now: Time)
    requires Sound(s) && s.sweep.Offering?
    ensures Sound(OfferDeclined(c, s, now))
  {
    hide NoteAbnormal;
    SoundNote(c, s, s.sweep.provider.key, Misdeclared, now);
  }

  lemma SoundAnswer(c: Config, s: State, answer: Answer, now: Time)
    requires Sound(s) && s.sweep.Offering?
    ensures Sound(AnswerOffer(c, s, answer, now))
  {
    hide OfferAccepted, OfferDeclined, NoteAbnormal, RemoveFirst;
    match answer
    case NoAnswer => SoundNote(c, s, s.sweep.provider.key, Unanswered, now);
    case Refused(_) =>
    case Declined => SoundDeclined(c, s, now);
    case Accepted => SoundAccepted(s);
  }

  lemma SoundLateAck(c: Config, s: State, id: RunId, claimant: Key, now: Time)
    requires Sound(s)
    ensures Sound(AcceptLateAck(c, s, id, claimant, now))
  {
    hide TakeOver, NoteAbnormal, Unqueue;
    if LateAckAllowed(s, id, claimant) {
      var h := s.tracked[id];
      SoundTakeOver(s, h, claimant);
      var u := TakeOver(s, h, claimant);
      UnqueueFrame(u, s.made[h].agent, id);
      SoundNote(c, Unqueue(u, s.made[h].agent, id), claimant, AnsweredLate, now);
    }
  }

  lemma SoundComplete(s: State, h: nat, task: nat)
    requires Sound(s) && CanComplete(s, h, task)
    ensures Sound(CompleteCommand(s, h, task))
  {
    var r := s.made[h];
    if Closing(r, r.pipelines[task].cmd) {
      SoundEnd(WithRun(s, h, r.(pipelines := RemoveAt(r.pipelines, task))), h);
    }
  }

  lemma SoundSimple(c: Config, s: State, step: Step, now: Time)
    requires Sound(s) && Enabled(s, step)
    requires step.Start? || step.Enqueue? || step.Attach? || step.Detach? || step.Cancel?
    ensures Sound(Next(c, s, step, now))
  {
    hide EnqueueRun, CancelRun, Register;
    match step
    case Enqueue(id, agent, withHandlers) => SoundEnqueue(s, id, agent, withHandlers, now);
    case Attach(connection, names) => SoundRegister(s, connection, names);
    case Cancel(id) => SoundCancel(s, id);
    case _ =>
  }

  lemma SoundEnqueue(s: State, id: RunId, agent: AgentRef, withHandlers: bool, now: Time)
    requires Sound(s)
    ensures Sound(EnqueueRun(s, id, agent, withHandlers, now))
  {
  }

  lemma SoundRegister(s: State, connection: Connection, names: set<string>)
    requires Sound(s)
    ensures Sound(Register(s, connection, names))
  {
  }

  lemma SoundCancel(s: State, id: RunId)
    requires Sound(s)
    ensures Sound(CancelRun(s, id))
  {
  }

  lemma SoundScan(s: State)
    requires Sound(s) && s.sweep.Scanning?
    ensures Sound(ScanNext(s))
  {
    hide Offerable;
  }

  lemma SoundFinishShot(s: State, h: nat, task: nat)
    requires Sound(s) && CanFinish(s, h, task)
    ensures Sound(FinishShot(s, h, task))
  {
    SoundEnd(WithRun(s, h, s.made[h].(finishers := RemoveAt(s.made[h].finishers, task))), h);
  }

  lemma SoundNext(c: Config, s: State, step: Step, now: Time)
    requires Sound(s) && Enabled(s, step)
    ensures Sound(Next(c, s, step, now))
  {
    hide Sound, WakeUp, ScanNext, AnswerOffer, PushTo, AcceptLateAck, TakeCommand, CompleteCommand, FinishShot;
    match step
    case Wake(order) => SoundWake(c, s, order, now);
    case Scan => SoundScan(s);
    case Answered(answer) => SoundAnswer(c, s, answer, now);
    case Push(id, cmd) => SoundPush(c, s, id, cmd, now);
    case LateAck(id, claimant) => SoundLateAck(c, s, id, claimant, now);
    case Take(h, task) => SoundTake(c, s, h, task, now);
    case Complete(h, task) => SoundComplete(s, h, task);
    case FinishOneShot(h, task) => SoundFinishShot(s, h, task);
    case _ => SoundSimple(c, s, step, now);
  }

  /** Every state a broker can reach is sound, over every interleaving. */
  lemma {:induction false} AlwaysSound(c: Config, states: seq<State>, moments: seq<Moment>, n: nat)
    requires Execution(c, states, moments) && n < |states|
    ensures Sound(states[n])
  {
    if n > 0 {
      AlwaysSound(c, states, moments, n - 1);
      assert Happens(c, states[n - 1], moments[n - 1], states[n - 1 + 1]);
      SoundNext(c, states[n - 1], moments[n - 1].step, moments[n - 1].at);
    }
  }
}

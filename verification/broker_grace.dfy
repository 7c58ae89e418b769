/**
 How runs leave a queue, and the expiry clock: an expired run had its full grace, and a sweep expires
 every run whose grace is over.
 */
module BrokerGrace {
  import opened Basics
  import opened Events
  import opened BrokerSpec
  import opened BrokerSound

  /** The entries of `ids` whose grace is over. */
  function Unexpired(s: State, a: AgentRef, ids: seq<RunId>, cutoff: Time): seq<RunId>
    requires WellFormed(s)
  {
    if ids == [] then []
    else (if Expires(s, a, ids[0], cutoff) then [] else [ids[0]]) + Unexpired(s, a, ids[1..], cutoff)
  }

  /** What the expiry test looks at is left alone by expiring. */
  predicate SameClocks(s: State, t: State) {
    && t == s.(made := t.made, pending := t.pending)
    && |t.made| == |s.made|
    && (forall h :: 0 <= h < |s.made| ==> t.made[h].id == s.made[h].id && t.made[h].queuedAt == s.made[h].queuedAt)
  }

  lemma ExpireOneEffect(s: State, a: AgentRef, id: RunId, cutoff: Time)
    requires WellFormed(s)
    ensures var t := ExpireOne(s, a, id, cutoff);
      && SameClocks(s, t)
      && (forall b :: b != a ==> Queue(t, b) == Queue(s, b))
      && Queue(t, a) == (if Expires(s, a, id, cutoff) then RemoveFirst(Queue(s, a), id) else Queue(s, a))
  {
    hide Expires, Unqueue, Queue;
    if Expires(s, a, id, cutoff) {
      GraceIsOver(s, a, id, cutoff);
      UnqueueQueues(s, a, id);
      UnqueueFrame(s, a, id);
      SameQueue(Unqueue(s, a, id), ExpireOne(s, a, id, cutoff));
    }
  }

  lemma UnqueueQueues(s: State, a: AgentRef, id: RunId)
    ensures forall b :: b != a ==> Queue(Unqueue(s, a, id), b) == Queue(s, b)
    ensures Queue(Unqueue(s, a, id), a) == RemoveFirst(Queue(s, a), id)
  {
    RemoveFirstAbsent([], id);
    hide RemoveFirst;
  }

  lemma SameQueue(s: State, t: State)
    requires t.pending == s.pending
    ensures forall b :: Queue(t, b) == Queue(s, b)
  {
  }

  lemma SameExpiry(s: State, t: State, a: AgentRef, cutoff: Time)
    requires WellFormed(s) && WellFormed(t) && SameClocks(s, t)
    ensures forall id :: Expires(t, a, id, cutoff) == Expires(s, a, id, cutoff)
  {
  }

  /** Walking a snapshot of the tail of the queue removes exactly the expired entries of that tail. */
  lemma {:induction false} ExpireQueueEffect(s: State, a: AgentRef, kept: seq<RunId>, ids: seq<RunId>, cutoff: Time)
    requires WellFormed(s) && Queue(s, a) == kept + ids
    requires forall id :: id in kept ==> !Expires(s, a, id, cutoff)
    ensures var t := ExpireQueue(s, a, ids, cutoff);
      && SameClocks(s, t)
      && (forall b :: b != a ==> Queue(t, b) == Queue(s, b))
      && Queue(t, a) == kept + Unexpired(s, a, ids, cutoff)
    decreases |ids|
  {
    hide ExpireOne, Expires, RemoveFirst, Queue, SameClocks;
    if ids == [] {
      assert kept + ids == kept;
      SameClocksSelf(s);
    } else {
      var id := ids[0];
      var t := ExpireOne(s, a, id, cutoff);
      ExpireOneEffect(s, a, id, cutoff);
      SameExpiry(s, t, a, cutoff);
      UnexpiredReads(s, t, a, ids[1..], cutoff);
      assert kept + ids == kept + [id] + ids[1..];
      if Expires(s, a, id, cutoff) {
        RemoveAfter(kept, id, ids[1..]);
        ExpireQueueEffect(t, a, kept, ids[1..], cutoff);
        assert [] + Unexpired(s, a, ids[1..], cutoff) == Unexpired(s, a, ids[1..], cutoff);
      } else {
        ExpireQueueEffect(t, a, kept + [id], ids[1..], cutoff);
        assert kept + [id] + Unexpired(s, a, ids[1..], cutoff) == kept + ([id] + Unexpired(s, a, ids[1..], cutoff));
      }
      SameClocksTransitive(s, t, ExpireQueue(s, a, ids, cutoff));
    }
  }

  lemma SameClocksSelf(s: State)
    ensures SameClocks(s, s)
  {
  }

  lemma SameClocksTransitive(s: State, t: State, u: State)
    requires SameClocks(s, t) && SameClocks(t, u)
    ensures SameClocks(s, u)
  {
  }

  lemma RemoveAfter<T>(kept: seq<T>, x: T, rest: seq<T>)
    requires x !in kept
    ensures RemoveFirst(kept + [x] + rest, x) == kept + rest
  {
    var s := kept + [x] + rest;
    var i := RemoveFirstSplits(s, x);
    assert s[|kept|] == x;
  }

  lemma {:induction false} UnexpiredReads(s: State, t: State, a: AgentRef, ids: seq<RunId>, cutoff: Time)
    requires WellFormed(s) && WellFormed(t) && SameClocks(s, t)
    ensures Unexpired(t, a, ids, cutoff) == Unexpired(s, a, ids, cutoff)
  {
    if ids != [] {
      UnexpiredReads(s, t, a, ids[1..], cutoff);
    }
  }

  lemma {:induction false} ExpireAgentsEffect(s: State, agents: seq<AgentRef>, cutoff: Time)
    requires WellFormed(s) && NoDuplicates(agents)
    ensures var t := ExpireAgents(s, agents, cutoff);
      && SameClocks(s, t)
      && forall a :: Queue(t, a) ==
           if a in agents && a !in s.links then Unexpired(s, a, Queue(s, a), cutoff) else Queue(s, a)
    decreases |agents|
  {
    hide SameClocks, Queue, Unexpired, ExpireQueue;
    if agents != [] {
      var first := agents[0];
      var t := if first in s.links then s else ExpireQueue(s, first, Queue(s, first), cutoff);
      FirstAgentEffect(s, first, cutoff);
      SameLinks(s, t);
      ExpireAgentsEffect(t, agents[1..], cutoff);
      SameClocksTransitive(s, t, ExpireAgents(s, agents, cutoff));
      forall a ensures Unexpired(t, a, Queue(s, a), cutoff) == Unexpired(s, a, Queue(s, a), cutoff) {
        UnexpiredReads(s, t, a, Queue(s, a), cutoff);
      }
      assert forall a :: a in agents <==> a == first || a in agents[1..];
      assert first !in agents[1..];
    } else {
      SameClocksSelf(s);
    }
  }

  lemma SameLinks(s: State, t: State)
    requires SameClocks(s, t)
    ensures t.links == s.links
  {
  }

  lemma FirstAgentEffect(s: State, agent: AgentRef, cutoff: Time)
    requires WellFormed(s)
    ensures var t := if agent in s.links then s else ExpireQueue(s, agent, Queue(s, agent), cutoff);
      && SameClocks(s, t)
      && forall a :: Queue(t, a) == if a == agent && a !in s.links then Unexpired(s, a, Queue(s, a), cutoff)
                                    else Queue(s, a)
  {
    hide SameClocks, Queue, Unexpired, ExpireQueue;
    SameClocksSelf(s);
    if agent !in s.links {
      assert [] + Queue(s, agent) == Queue(s, agent);
      ExpireQueueEffect(s, agent, [], Queue(s, agent), cutoff);
      assert [] + Unexpired(s, agent, Queue(s, agent), cutoff) == Unexpired(s, agent, Queue(s, agent), cutoff);
    }
  }

  /** A sweep leaves the queues of served agents alone, and takes out of the others exactly the runs
      enqueued, and unserved, for at least the whole window. */
  lemma SweepExpiresExactly(c: Config, s: State, order: seq<AgentRef>, now: Time, a: AgentRef)
    requires WellFormed(s) && Enabled(s, Wake(order))
    ensures Queue(WakeUp(c, s, order, now), a) ==
      if a in s.links then Queue(s, a) else Unexpired(s, a, Queue(s, a), now - c.unservedTimeout)
  {
    hide ExpireAgents, SameClocks;
    ExpireAgentsEffect(s, order, now - c.unservedTimeout);
    if a !in s.links && a !in order {
      assert a !in s.pending;
    }
  }

  lemma {:induction false} UnexpiredMembers(s: State, a: AgentRef, ids: seq<RunId>, cutoff: Time, id: RunId)
    requires WellFormed(s)
    ensures id in Unexpired(s, a, ids, cutoff) <==> id in ids && !Expires(s, a, id, cutoff)
  {
    if ids != [] {
      UnexpiredMembers(s, a, ids[1..], cutoff, id);
    }
  }

  /** Losing its connection starts an agent's clock at that moment; otherwise the clock only moves forward. */
  lemma ClockStep(c: Config, s: State, step: Step, now: Time, a: AgentRef)
    requires WellFormed(s) && Enabled(s, step)
    ensures ClockMoved(s, Next(c, s, step, now), now, a)
  {
    hide WakeUp, ScanNext, AnswerOffer, PushTo, AcceptLateAck, TakeCommand, CompleteCommand, FinishShot, EnqueueRun,
      CancelRun;
    hide WellFormed;
    match step
    case Wake(order) => WakeClock(c, s, order, now);
    case Scan => ScanClock(s);
    case Answered(answer) => AnswerClock(c, s, answer, now, a);
    case Push(id, cmd) => PushClock(c, s, id, cmd, now, a);
    case LateAck(id, claimant) => LateAckClock(c, s, id, claimant, now, a);
    case Take(h, task) => TakeClock(c, s, h, task, now, a);
    case Complete(h, task) => CompleteClock(s, h, task);
    case FinishOneShot(h, task) => FinishShotClock(s, h, task);
    case Enqueue(id, agent, w) => EnqueueClock(s, id, agent, w, now);
    case Cancel(id) => CancelClock(s, id);
    case Start => {}
    case Attach(_, _) => {}
    case Detach(_) => {}
  }

  predicate SameRoster(s: State, t: State) {
    t.links == s.links && t.unservedSince == s.unservedSince
  }

  predicate ClockMoved(s: State, t: State, now: Time, a: AgentRef) {
    a !in t.links && (a in s.links || a in s.unservedSince) ==>
      && a in t.unservedSince
      && (t.unservedSince[a] == now || (a !in s.links && t.unservedSince[a] == s.unservedSince[a]))
  }

  lemma NoteClock(c: Config, s: State, key: Key, counter: Counter, now: Time, a: AgentRef)
    ensures ClockMoved(s, NoteAbnormal(c, s, key, counter, now), now, a)
  {
  }

  lemma WakeClock(c: Config, s: State, order: seq<AgentRef>, now: Time)
    requires WellFormed(s)
    ensures SameRoster(s, WakeUp(c, s, order, now))
  {
    ExpireAgentsIsExpiry(s, order, now - c.unservedTimeout);
  }

  lemma ScanClock(s: State)
    requires WellFormed(s) && s.sweep.Scanning?
    ensures SameRoster(s, ScanNext(s))
  {
    hide ScannedQueues, ScannedSweep;
  }

  lemma AnswerClock(c: Config, s: State, answer: Answer, now: Time, a: AgentRef)
    requires WellFormed(s) && s.sweep.Offering?
    ensures ClockMoved(s, AnswerOffer(c, s, answer, now), now, a)
  {
    hide NoteAbnormal, TakeOver, Unqueue;
    var h, key := s.sweep.run, s.sweep.provider.key;
    match answer
    case NoAnswer => NoteClock(c, s, key, Unanswered, now, a);
    case Refused(reason) => UnqueueFrame(SpawnFinisher(s, h, Fail(reason)), s.sweep.agent, s.made[h].id);
    case Declined => NoteClock(c, s, key, Misdeclared, now, a);
    case Accepted =>
      TakeOverFrame(s, h, key);
      UnqueueFrame(TakeOver(s, h, key), s.sweep.agent, s.made[h].id);
  }

  lemma PushClock(c: Config, s: State, id: RunId, cmd: Command, now: Time, a: AgentRef)
    requires WellFormed(s)
    ensures ClockMoved(s, PushTo(c, s, id, cmd, now), now, a)
  {
    hide NoteAbnormal, Note, Count;
    if id in s.tracked && cmd.Fail? && Named(s, id).claimedBy.Some? {
      NoteClock(c, s, Named(s, id).claimedBy.value, Abandoned, now, a);
    }
  }

  lemma LateAckClock(c: Config, s: State, id: RunId, claimant: Key, now: Time, a: AgentRef)
    requires WellFormed(s)
    ensures ClockMoved(s, AcceptLateAck(c, s, id, claimant, now), now, a)
  {
    hide NoteAbnormal, TakeOver, Unqueue;
    if LateAckAllowed(s, id, claimant) {
      var u := TakeOver(s, s.tracked[id], claimant);
      TakeOverFrame(s, s.tracked[id], claimant);
      UnqueueFrame(u, Named(s, id).agent, id);
      NoteClock(c, Unqueue(u, Named(s, id).agent, id), claimant, AnsweredLate, now, a);
    }
  }

  lemma TakeClock(c: Config, s: State, h: nat, task: nat, now: Time, a: AgentRef)
    requires WellFormed(s) && CanTake(s, h, task)
    ensures ClockMoved(s, TakeCommand(c, s, h, task, now), now, a)
  {
    hide PushTo;
    if Malformed(s.made[h].inQueue[0]) {
      PushClock(c, Drained(s, h), s.made[h].id, Fail(MALFORMED_REASON), now, a);
    }
  }

  lemma CompleteClock(s: State, h: nat, task: nat)
    requires WellFormed(s) && CanComplete(s, h, task)
    ensures SameRoster(s, CompleteCommand(s, h, task))
  {
    hide End;
    EndEffect(WithRun(s, h, s.made[h].(pipelines := RemoveAt(s.made[h].pipelines, task))), h);
  }

  lemma FinishShotClock(s: State, h: nat, task: nat)
    requires WellFormed(s) && CanFinish(s, h, task)
    ensures SameRoster(s, FinishShot(s, h, task))
  {
    hide End;
    EndEffect(WithRun(s, h, s.made[h].(finishers := RemoveAt(s.made[h].finishers, task))), h);
  }

  lemma EnqueueClock(s: State, id: RunId, agent: AgentRef, withHandlers: bool, now: Time)
    requires WellFormed(s)
    ensures SameRoster(s, EnqueueRun(s, id, agent, withHandlers, now))
  {
  }

  lemma CancelClock(s: State, id: RunId)
    requires WellFormed(s)
    ensures SameRoster(s, CancelRun(s, id))
  {
  }

  predicate ClockNeverGoesBack(moments: seq<Moment>) {
    forall i, j :: 0 <= i <= j < |moments| ==> moments[i].at <= moments[j].at
  }

  /** An agent that had a connection up to some moment is still served, or its clock started no earlier. */
  lemma {:induction false} ServedUntil(c: Config, states: seq<State>, moments: seq<Moment>, j: nat, n: nat, a: AgentRef)
    requires Execution(c, states, moments) && ClockNeverGoesBack(moments) && j < n <= |moments|
    requires a in states[j].links
    ensures a in states[n].links || (a in states[n].unservedSince && moments[j].at <= states[n].unservedSince[a])
  {
    hide Next, Enabled;
    var last := n - 1;
    assert Happens(c, states[last], moments[last], states[last + 1]);
    ClockStep(c, states[last], moments[last].step, moments[last].at, a);
    if j < last {
      ServedUntil(c, states, moments, j, last, a);
    }
  }

  /** A run expired at some time was enqueued at least a whole window earlier, its agent is unserved, and every
      state in which the agent had a connection was over by then too. It ends with the no-provider failure. */
  lemma FullGrace(c: Config, states: seq<State>, moments: seq<Moment>, n: nat, a: AgentRef, id: RunId)
    requires Execution(c, states, moments) && ClockNeverGoesBack(moments) && n < |moments|
    requires moments[n].step.Wake? && id in Queue(states[n], a) && id !in Queue(states[n + 1], a)
    ensures a !in states[n].links && id in states[n].tracked
    ensures Named(states[n], id).queuedAt <= moments[n].at - c.unservedTimeout
    ensures forall j :: 0 <= j < n && a in states[j].links ==> moments[j].at <= moments[n].at - c.unservedTimeout
    ensures var h := states[n].tracked[id];
      h < |states[n + 1].made| && Fail(NO_PROVIDER_REASON) in states[n + 1].made[h].finishers
  {
    hide Next, WakeUp, Queue, Expires;
    var s, m := states[n], moments[n];
    assert Happens(c, s, m, states[n + 1]);
    assert states[n + 1] == WakeUp(c, s, m.step.order, m.at) by { WakeIsNext(c, s, m.step.order, m.at); }
    SweptRunHadItsWindow(c, s, m.step.order, m.at, a, id);
    WakeFinishes(c, s, m.step.order, m.at, a, id);
    forall j | 0 <= j < n && a in states[j].links ensures moments[j].at <= m.at - c.unservedTimeout {
      ServedUntil(c, states, moments, j, n, a);
    }
  }

  lemma WakeIsNext(c: Config, s: State, order: seq<AgentRef>, now: Time)
    requires WellFormed(s) && Enabled(s, Wake(order))
    ensures Next(c, s, Wake(order), now) == WakeUp(c, s, order, now)
  {
    hide WakeUp;
  }

  lemma SweptRunHadItsWindow(c: Config, s: State, order: seq<AgentRef>, now: Time, a: AgentRef, id: RunId)
    requires WellFormed(s) && Enabled(s, Wake(order))
    requires id in Queue(s, a) && id !in Queue(WakeUp(c, s, order, now), a)
    ensures a !in s.links && id in s.tracked && Named(s, id).queuedAt <= now - c.unservedTimeout
    ensures a in s.unservedSince ==> s.unservedSince[a] <= now - c.unservedTimeout
  {
    hide WakeUp, Queue, Unexpired, Expires, Enabled;
    SweepExpiresExactly(c, s, order, now, a);
    UnexpiredMembers(s, a, Queue(s, a), now - c.unservedTimeout, id);
    GraceIsOver(s, a, id, now - c.unservedTimeout);
  }

  lemma GraceIsOver(s: State, a: AgentRef, id: RunId, cutoff: Time)
    requires WellFormed(s) && Expires(s, a, id, cutoff)
    ensures id in s.tracked && Named(s, id).queuedAt <= cutoff
    ensures a in s.unservedSince ==> s.unservedSince[a] <= cutoff
  {
  }

  lemma WakeFinishes(c: Config, s: State, order: seq<AgentRef>, now: Time, a: AgentRef, id: RunId)
    requires WellFormed(s) && id in Queue(s, a) && id !in Queue(WakeUp(c, s, order, now), a)
    ensures var t := WakeUp(c, s, order, now);
      id in s.tracked && s.tracked[id] < |t.made| && Fail(NO_PROVIDER_REASON) in t.made[s.tracked[id]].finishers
  {
    hide ExpireAgents;
    var t := ExpireAgents(s, order, now - c.unservedTimeout);
    ExpireAgentsIsExpiry(s, order, now - c.unservedTimeout);
    assert id !in Queue(t, a);
    assert Left(s, t, a, id);
  }

  /** Entries leave a queue in five ways only: placed, refused or acked late, expired, or dropped by a scan
      because the run was cancelled or forgotten. */
  lemma HowRunsLeave(c: Config, s: State, step: Step, now: Time, a: AgentRef, id: RunId)
    requires WellFormed(s) && Enabled(s, step)
    requires id in Queue(s, a) && id !in Queue(Next(c, s, step, now), a)
    ensures match step
      case Answered(Accepted) => a == s.sweep.agent && id == s.made[s.sweep.run].id
      case Answered(Refused(_)) => a == s.sweep.agent && id == s.made[s.sweep.run].id
      case LateAck(i, claimant) => i == id && LateAckAllowed(s, id, claimant) && Named(s, id).agent == a
      case Wake(_) => a !in s.links && Expires(s, a, id, now - c.unservedTimeout)
      case Scan => a in s.links && (id !in s.tracked || Named(s, id).cancelRequested)
      case _ => false
  {
    hide WakeUp, ScanNext, AnswerOffer, PushTo, AcceptLateAck, TakeCommand, CompleteCommand, FinishShot, EnqueueRun,
      CancelRun;
    match step
    case Wake(order) =>
      SweepExpiresExactly(c, s, order, now, a);
      UnexpiredMembers(s, a, Queue(s, a), now - c.unservedTimeout, id);
    case Scan => ScanLeaves(s, a, id);
    case Answered(answer) => AnswerLeaves(c, s, answer, now, a, id);
    case LateAck(i, claimant) => LateAckLeaves(c, s, i, claimant, now, a, id);
    case Push(i, cmd) => PushQueues(c, s, i, cmd, now);
    case Take(h, task) => TakeQueues(c, s, h, task, now);
    case Complete(h, task) => CompleteQueues(s, h, task);
    case FinishOneShot(h, task) => FinishShotQueues(s, h, task);
    case Enqueue(i, agent, w) => EnqueueQueues(s, i, agent, w, now, a);
    case Cancel(i) => CancelQueues(s, i);
    case _ =>
  }

  lemma ScanLeaves(s: State, a: AgentRef, id: RunId)
    requires WellFormed(s) && s.sweep.Scanning? && id in Queue(s, a) && id !in Queue(ScanNext(s), a)
    ensures a in s.links && (id !in s.tracked || Named(s, id).cancelRequested)
  {
    hide Offerable;
    DroppedHeads(s, Queue(s, a));
  }

  lemma {:induction false} DroppedHeads(s: State, queue: seq<RunId>)
    requires WellFormed(s)
    ensures forall id :: id in queue && id !in Offerable(s, queue) ==> id !in s.tracked || Named(s, id).cancelRequested
  {
    if queue != [] {
      DroppedHeads(s, queue[1..]);
    }
  }

  lemma UnqueueLeaves(s: State, agent: AgentRef, i: RunId, a: AgentRef, id: RunId)
    requires id in Queue(s, a) && id !in Queue(Unqueue(s, agent, i), a)
    ensures agent == a && i == id
  {
    hide RemoveFirst;
    RemoveFirstMembers(Queue(s, agent), i);
  }

  lemma AnswerLeaves(c: Config, s: State, answer: Answer, now: Time, a: AgentRef, id: RunId)
    requires WellFormed(s) && s.sweep.Offering? && id in Queue(s, a) && id !in Queue(AnswerOffer(c, s, answer, now), a)
    ensures (answer.Accepted? || answer.Refused?) && a == s.sweep.agent && id == s.made[s.sweep.run].id
  {
    hide NoteAbnormal, TakeOver, Unqueue;
    var h, key := s.sweep.run, s.sweep.provider.key;
    match answer
    case Refused(reason) => UnqueueLeaves(SpawnFinisher(s, h, Fail(reason)), s.sweep.agent, s.made[h].id, a, id);
    case Accepted =>
      TakeOverFrame(s, h, key);
      UnqueueLeaves(TakeOver(s, h, key), s.sweep.agent, s.made[h].id, a, id);
    case _ =>
  }

  lemma LateAckLeaves(c: Config, s: State, i: RunId, claimant: Key, now: Time, a: AgentRef, id: RunId)
    requires WellFormed(s) && id in Queue(s, a) && id !in Queue(AcceptLateAck(c, s, i, claimant, now), a)
    ensures i == id && LateAckAllowed(s, id, claimant) && Named(s, id).agent == a
  {
    hide NoteAbnormal, TakeOver, Unqueue;
    if LateAckAllowed(s, i, claimant) {
      TakeOverFrame(s, s.tracked[i], claimant);
      UnqueueLeaves(TakeOver(s, s.tracked[i], claimant), Named(s, i).agent, i, a, id);
    }
  }

  lemma PushQueues(c: Config, s: State, id: RunId, cmd: Command, now: Time)
    requires WellFormed(s)
    ensures PushTo(c, s, id, cmd, now).pending == s.pending
  {
    hide NoteAbandoned;
  }

  lemma TakeQueues(c: Config, s: State, h: nat, task: nat, now: Time)
    requires WellFormed(s) && CanTake(s, h, task)
    ensures TakeCommand(c, s, h, task, now).pending == s.pending
  {
    hide PushTo;
    PushQueues(c, Drained(s, h), s.made[h].id, Fail(MALFORMED_REASON), now);
  }

  lemma CompleteQueues(s: State, h: nat, task: nat)
    requires WellFormed(s) && CanComplete(s, h, task)
    ensures CompleteCommand(s, h, task).pending == s.pending
  {
    hide End;
    EndEffect(WithRun(s, h, s.made[h].(pipelines := RemoveAt(s.made[h].pipelines, task))), h);
  }

  lemma FinishShotQueues(s: State, h: nat, task: nat)
    requires WellFormed(s) && CanFinish(s, h, task)
    ensures FinishShot(s, h, task).pending == s.pending
  {
    hide End;
    EndEffect(WithRun(s, h, s.made[h].(finishers := RemoveAt(s.made[h].finishers, task))), h);
  }

  lemma EnqueueQueues(s: State, id: RunId, agent: AgentRef, withHandlers: bool, now: Time, a: AgentRef)
    requires WellFormed(s)
    ensures Queue(s, a) <= Queue(EnqueueRun(s, id, agent, withHandlers, now), a)
  {
  }

  lemma CancelQueues(s: State, id: RunId)
    requires WellFormed(s)
    ensures CancelRun(s, id).pending == s.pending
  {
  }
}

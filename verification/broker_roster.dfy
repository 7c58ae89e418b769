/**
 Who serves which agent, and since when nobody does, told by the connections and disconnections themselves: when a
 provider is withdrawn, what an agent's clock says, and exactly when a queued run is given up.
 */
module BrokerRoster {
  import opened Basics
  import opened Events
  import opened BrokerSpec
  import opened BrokerSound
  import opened BrokerGrace
  import opened BrokerOvertaken

  // ------------------------------------------------------------------- connections and withdrawals

  /** A connection serves every agent it names, whose clock stops, and disturbs no other. */
  lemma AttachServes(c: Config, s: State, connection: Connection, names: set<string>, now: Time, a: AgentRef)
    requires WellFormed(s)
    ensures var t := Next(c, s, Attach(connection, names), now);
      if a.providerKey == connection.key && a.name in names
      then a in t.links && t.links[a] == connection && a !in t.unservedSince && t.workToDo
      else SameFor(s, t, a)
  {
    NamedRefs(connection.key, names, a);
    hide RefsOf;
  }

  lemma NamedRefs(key: Key, names: set<string>, a: AgentRef)
    ensures a in RefsOf(key, names) <==> a.providerKey == key && a.name in names
  {
    assert a.providerKey == key ==> a == AgentRef(key, a.name);
  }

  predicate SameFor(s: State, t: State, a: AgentRef) {
    && (a in t.links <==> a in s.links) && (a in s.links ==> t.links[a] == s.links[a])
    && (a in t.unservedSince <==> a in s.unservedSince)
    && (a in s.unservedSince ==> t.unservedSince[a] == s.unservedSince[a])
  }

  /** The agent is unserved as of now. */
  predicate UnservedNow(t: State, a: AgentRef, now: Time) {
    a !in t.links && a in t.unservedSince && t.unservedSince[a] == now
  }

  lemma DetachUnserves(c: Config, s: State, agents: set<AgentRef>, now: Time, a: AgentRef)
    requires WellFormed(s)
    ensures var t := Next(c, s, Detach(agents), now);
      if a in agents then UnservedNow(t, a, now) else SameFor(s, t, a)
  {
  }

  /** By this step one more event of some kind has been counted against the key, which has reached the allowance. */
  ghost predicate ReachesAllowance(c: Config, s: State, t: State, key: Key) {
    && c.tolerance.Some?
    && exists counter :: && Count(t.counters, key, counter) == Count(s.counters, key, counter) + 1
                         && Count(t.counters, key, counter) >= c.tolerance.value
  }

  /** The agent is withdrawn if its provider reaches the allowance by this step, and is otherwise left alone. */
  ghost predicate Judged(c: Config, s: State, t: State, now: Time, a: AgentRef) {
    if a in s.links && ReachesAllowance(c, s, t, a.providerKey) then UnservedNow(t, a, now) else SameFor(s, t, a)
  }

  lemma NoteJudges(c: Config, s: State, key: Key, counter: Counter, now: Time, a: AgentRef)
    ensures Judged(c, s, NoteAbnormal(c, s, key, counter, now), now, a)
  {
    hide NoteAbnormal, Note, Count, ReachesAllowance, UnservedNow, SameFor;
    NoteReaches(c, s, key, counter, now, a.providerKey);
    NoteWithdraws(c, s, key, counter, now, a);
  }

  /** The event is the only one counted by it, and against its own key. */
  lemma NoteReaches(c: Config, s: State, key: Key, counter: Counter, now: Time, k: Key)
    ensures var t := NoteAbnormal(c, s, key, counter, now);
      ReachesAllowance(c, s, t, k)
      <==> k == key && c.tolerance.Some? && Count(t.counters, key, counter) >= c.tolerance.value
  {
    hide NoteAbnormal, Note, Count;
    forall e ensures Count(Note(s.counters, key, counter), k, e)
                  == Count(s.counters, k, e) + if k == key && e == counter then 1 else 0 {
      NoteCounts(s.counters, key, counter, k, e);
    }
  }

  lemma NoteWithdraws(c: Config, s: State, key: Key, counter: Counter, now: Time, a: AgentRef)
    ensures var t := NoteAbnormal(c, s, key, counter, now);
      var reached := c.tolerance.Some? && Count(t.counters, key, counter) >= c.tolerance.value;
      if a in s.links && a.providerKey == key && reached then UnservedNow(t, a, now) else SameFor(s, t, a)
  {
    hide Note, Count;
  }

  predicate SameRecord(s: State, t: State) {
    t.links == s.links && t.unservedSince == s.unservedSince && t.counters == s.counters
  }

  /** Only links, clocks and counters matter. */
  lemma JudgedReads(c: Config, s: State, t: State, u: State, v: State, now: Time, a: AgentRef)
    requires Judged(c, s, t, now, a) && SameRecord(s, u) && SameRecord(t, v)
    ensures Judged(c, u, v, now, a)
  {
    hide Count;
    assert ReachesAllowance(c, s, t, a.providerKey) == ReachesAllowance(c, u, v, a.providerKey);
  }

  lemma UndisturbedIsJudged(c: Config, s: State, t: State, now: Time, a: AgentRef)
    requires SameRecord(s, t)
    ensures Judged(c, s, t, now, a)
  {
  }

  lemma AnswerJudges(c: Config, s: State, answer: Answer, now: Time, a: AgentRef)
    requires WellFormed(s) && s.sweep.Offering?
    ensures Judged(c, s, AnswerOffer(c, s, answer, now), now, a)
  {
    hide NoteAbnormal, TakeOver, Unqueue, Judged;
    var agent, h, key := s.sweep.agent, s.sweep.run, s.sweep.provider.key;
    var t := AnswerOffer(c, s, answer, now);
    match answer
    case NoAnswer =>
      NoteJudges(c, s, key, Unanswered, now, a);
      JudgedReads(c, s, NoteAbnormal(c, s, key, Unanswered, now), s, t, now, a);
    case Refused(reason) =>
      UnqueueFrame(SpawnFinisher(s, h, Fail(reason)), agent, s.made[h].id);
      UndisturbedIsJudged(c, s, t, now, a);
    case Declined =>
      NoteJudges(c, s, key, Misdeclared, now, a);
      UndisturbedIsJudged(c, s, s, now, a);
      JudgedReads(c, s, if BelievedFree(s, key) then NoteAbnormal(c, s, key, Misdeclared, now) else s, s, t, now, a);
    case Accepted =>
      TakeOverFrame(s, h, key);
      UnqueueFrame(TakeOver(s, h, key), agent, s.made[h].id);
      UndisturbedIsJudged(c, s, t, now, a);
  }

  lemma LateAckJudges(c: Config, s: State, id: RunId, claimant: Key, now: Time, a: AgentRef)
    requires WellFormed(s)
    ensures Judged(c, s, AcceptLateAck(c, s, id, claimant, now), now, a)
  {
    hide NoteAbnormal, TakeOver, Unqueue, Judged;
    if LateAckAllowed(s, id, claimant) {
      var u := TakeOver(s, s.tracked[id], claimant);
      TakeOverFrame(s, s.tracked[id], claimant);
      UnqueueFrame(u, Named(s, id).agent, id);
      var v := Unqueue(u, Named(s, id).agent, id);
      NoteJudges(c, v, claimant, AnsweredLate, now, a);
      JudgedReads(c, v, AcceptLateAck(c, s, id, claimant, now), s, AcceptLateAck(c, s, id, claimant, now), now, a);
    } else {
      UndisturbedIsJudged(c, s, s, now, a);
    }
  }

  lemma PushJudges(c: Config, s: State, id: RunId, cmd: Command, now: Time, a: AgentRef)
    requires WellFormed(s)
    ensures Judged(c, s, PushTo(c, s, id, cmd, now), now, a)
  {
    hide NoteAbnormal, Judged;
    var t := PushTo(c, s, id, cmd, now);
    if id in s.tracked && cmd.Fail? && Named(s, id).claimedBy.Some? {
      var key := Named(s, id).claimedBy.value;
      NoteJudges(c, s, key, Abandoned, now, a);
      JudgedReads(c, s, NoteAbnormal(c, s, key, Abandoned, now), s, t, now, a);
    } else {
      UndisturbedIsJudged(c, s, t, now, a);
    }
  }

  lemma TakeJudges(c: Config, s: State, h: nat, task: nat, now: Time, a: AgentRef)
    requires WellFormed(s) && CanTake(s, h, task)
    ensures Judged(c, s, TakeCommand(c, s, h, task, now), now, a)
  {
    hide PushTo, Judged;
    var u := Drained(s, h);
    if Malformed(s.made[h].inQueue[0]) {
      PushJudges(c, u, s.made[h].id, Fail(MALFORMED_REASON), now, a);
      JudgedReads(c, u, TakeCommand(c, s, h, task, now), s, TakeCommand(c, s, h, task, now), now, a);
    } else {
      UndisturbedIsJudged(c, s, TakeCommand(c, s, h, task, now), now, a);
    }
  }

  lemma EndJudges(c: Config, s: State, h: nat, r: RunRecord, now: Time, a: AgentRef)
    requires WellFormed(s) && h < |s.made| && r.id == s.made[h].id
    ensures Judged(c, s, End(WithRun(s, h, r), h), now, a)
  {
    hide End;
    EndEffect(WithRun(s, h, r), h);
    UndisturbedIsJudged(c, s, End(WithRun(s, h, r), h), now, a);
  }

  lemma CompleteJudges(c: Config, s: State, h: nat, task: nat, now: Time, a: AgentRef)
    requires WellFormed(s) && CanComplete(s, h, task)
    ensures Judged(c, s, CompleteCommand(s, h, task), now, a)
  {
    hide End, Judged;
    var r := s.made[h];
    EndJudges(c, s, h, r.(pipelines := RemoveAt(r.pipelines, task)), now, a);
    UndisturbedIsJudged(c, s, WithRun(s, h, r.(pipelines := r.pipelines[task := Waiting])), now, a);
  }

  lemma ShotJudges(c: Config, s: State, h: nat, task: nat, now: Time, a: AgentRef)
    requires WellFormed(s) && CanFinish(s, h, task)
    ensures Judged(c, s, FinishShot(s, h, task), now, a)
  {
    hide End, Judged;
    EndJudges(c, s, h, s.made[h].(finishers := RemoveAt(s.made[h].finishers, task)), now, a);
  }

  lemma WakeJudges(c: Config, s: State, order: seq<AgentRef>, now: Time, a: AgentRef)
    requires WellFormed(s)
    ensures Judged(c, s, WakeUp(c, s, order, now), now, a)
  {
    hide ExpireAgents, Judged;
    ExpireAgentsIsExpiry(s, order, now - c.unservedTimeout);
    UndisturbedIsJudged(c, s, WakeUp(c, s, order, now), now, a);
  }

  lemma ScanJudges(c: Config, s: State, now: Time, a: AgentRef)
    requires WellFormed(s) && s.sweep.Scanning?
    ensures Judged(c, s, ScanNext(s), now, a)
  {
    hide ScannedQueues, ScannedSweep, Judged;
    UndisturbedIsJudged(c, s, ScanNext(s), now, a);
  }

  lemma EnqueueJudges(c: Config, s: State, id: RunId, agent: AgentRef, withHandlers: bool, now: Time, a: AgentRef)
    requires WellFormed(s)
    ensures Judged(c, s, EnqueueRun(s, id, agent, withHandlers, now), now, a)
  {
    hide Judged;
    UndisturbedIsJudged(c, s, EnqueueRun(s, id, agent, withHandlers, now), now, a);
  }

  lemma CancelJudges(c: Config, s: State, id: RunId, now: Time, a: AgentRef)
    requires WellFormed(s)
    ensures Judged(c, s, CancelRun(s, id), now, a)
  {
    hide Judged;
    UndisturbedIsJudged(c, s, CancelRun(s, id), now, a);
  }

  /** Apart from connecting and disconnecting, an agent loses its connection by a step if and only if an event counted
      against its provider by that step reaches the allowance; without an allowance none ever does. */
  lemma WithdrawnIffAllowanceReached(c: Config, s: State, step: Step, now: Time, a: AgentRef)
    requires WellFormed(s) && Enabled(s, step) && !step.Attach? && !step.Detach?
    ensures var t := Next(c, s, step, now);
      if a in s.links && ReachesAllowance(c, s, t, a.providerKey) then UnservedNow(t, a, now) else SameFor(s, t, a)
  {
    assert Judged(c, s, Next(c, s, step, now), now, a) by {
      hide WakeUp, ScanNext, AnswerOffer, PushTo, AcceptLateAck, TakeCommand, CompleteCommand, FinishShot,
        EnqueueRun, CancelRun, Judged;
      match step
      case Wake(order) => WakeJudges(c, s, order, now, a);
      case Scan => ScanJudges(c, s, now, a);
      case Answered(answer) => AnswerJudges(c, s, answer, now, a);
      case Push(id, cmd) => PushJudges(c, s, id, cmd, now, a);
      case LateAck(id, claimant) => LateAckJudges(c, s, id, claimant, now, a);
      case Take(h, task) => TakeJudges(c, s, h, task, now, a);
      case Complete(h, task) => CompleteJudges(c, s, h, task, now, a);
      case FinishOneShot(h, task) => ShotJudges(c, s, h, task, now, a);
      case Enqueue(id, agent, w) => EnqueueJudges(c, s, id, agent, w, now, a);
      case Cancel(id) => CancelJudges(c, s, id, now, a);
      case Start => UndisturbedIsJudged(c, s, Next(c, s, step, now), now, a);
    }
    hide Next, SameFor, UnservedNow, ReachesAllowance;
  }

  // ----------------------------------------------------------------------------- clocks and expiry

  /** When the `i`th moment comes the agent has a connection, or that moment disconnects it all the same. */
  predicate ServedOrDropped(states: seq<State>, moments: seq<Moment>, i: nat, a: AgentRef)
    requires |states| == |moments| + 1 && i < |moments|
  {
    a in states[i].links || (moments[i].step.Detach? && a in moments[i].step.agents)
  }

  function LastServed(states: seq<State>, moments: seq<Moment>, n: nat, a: AgentRef): Option<Time>
    requires |states| == |moments| + 1 && n <= |moments|
  {
    if n == 0 then None
    else if ServedOrDropped(states, moments, n - 1, a) then Some(moments[n - 1].at)
    else LastServed(states, moments, n - 1, a)
  }

  /** What an agent without a connection has for a clock. */
  predicate ClockIs(s: State, a: AgentRef, since: Option<Time>) {
    && (a in s.unservedSince <==> since.Some?)
    && (a in s.unservedSince ==> Some(s.unservedSince[a]) == since)
  }

  lemma ClockNext(c: Config, s: State, step: Step, now: Time, a: AgentRef)
    requires WellFormed(s) && Enabled(s, step) && a !in Next(c, s, step, now).links
    ensures var t := Next(c, s, step, now);
      if a in s.links || (step.Detach? && a in step.agents) then UnservedNow(t, a, now) else SameFor(s, t, a)
  {
    hide Next, ReachesAllowance, Enabled;
    match step {
      case Attach(connection, names) => AttachServes(c, s, connection, names, now, a);
      case Detach(agents) => DetachUnserves(c, s, agents, now, a);
      case _ => WithdrawnIffAllowanceReached(c, s, step, now, a);
    }
  }

  /** The clock of an agent without a connection tells when it last had one, or was last disconnected. */
  lemma {:induction false} ClockTellsLastServed(c: Config, states: seq<State>, moments: seq<Moment>, n: nat,
                                                a: AgentRef)
    requires Execution(c, states, moments) && n <= |moments| && a !in states[n].links
    ensures ClockIs(states[n], a, LastServed(states, moments, n, a))
  {
    hide Next, Enabled;
    if n > 0 {
      var s, m := states[n - 1], moments[n - 1];
      assert Happens(c, s, m, states[n - 1 + 1]);
      ClockNext(c, s, m.step, m.at, a);
      if a !in s.links {
        ClockTellsLastServed(c, states, moments, n - 1, a);
      }
    }
  }

  lemma {:induction false} LastIsLatest(states: seq<State>, moments: seq<Moment>, n: nat, a: AgentRef, cutoff: Time)
    requires |states| == |moments| + 1 && n <= |moments| && ClockNeverGoesBack(moments)
    ensures (LastServed(states, moments, n, a).Some? ==> LastServed(states, moments, n, a).value <= cutoff)
       <==> forall i :: 0 <= i < n && ServedOrDropped(states, moments, i, a) ==> moments[i].at <= cutoff
  {
    if n > 0 {
      LastIsLatest(states, moments, n - 1, a, cutoff);
    }
  }

  /** The run object that the `e`th moment makes keeps its id, its agent and the time it was enqueued at. */
  lemma {:induction false} EnqueuedAt(c: Config, states: seq<State>, moments: seq<Moment>, e: nat, n: nat)
    requires Execution(c, states, moments) && e < n <= |moments|
    requires moments[e].step.Enqueue? && !states[e].sweep.Stopped?
    ensures var h := |states[e].made|;
      && h < |states[n].made| && states[n].made[h].id == moments[e].step.id
      && states[n].made[h].agent == moments[e].step.agent && states[n].made[h].queuedAt == moments[e].at
  {
    hide Enabled;
    var s, m := states[n - 1], moments[n - 1];
    assert Happens(c, s, m, states[n - 1 + 1]);
    if e < n - 1 {
      hide Next;
      EnqueuedAt(c, states, moments, e, n - 1);
      NothingFreed(c, s, |states[e].made|, m.step, m.at);
    }
  }

  /** What a sweep gives up, in times alone: a queued run leaves by it if and only if its agent has no connection and,
      for a whole window, the run has been queued and the agent has neither had a connection nor lost one. */
  lemma ExpiredIffOverdue(c: Config, states: seq<State>, moments: seq<Moment>, e: nat, n: nat, a: AgentRef)
    requires Execution(c, states, moments) && ClockNeverGoesBack(moments) && e < n < |moments|
    requires moments[e].step.Enqueue? && !states[e].sweep.Stopped? && moments[n].step.Wake?
    requires var id := moments[e].step.id;
      id in states[n].tracked && states[n].tracked[id] == |states[e].made| && id in Queue(states[n], a)
    ensures var cutoff := moments[n].at - c.unservedTimeout;
      moments[e].step.id !in Queue(states[n + 1], a)
      <==> && a !in states[n].links
           && moments[e].at <= cutoff
           && forall i :: 0 <= i < n && ServedOrDropped(states, moments, i, a) ==> moments[i].at <= cutoff
  {
    hide Next, WakeUp, Queue, Unexpired, LastServed, ServedOrDropped, Enabled;
    var s, m, id := states[n], moments[n], moments[e].step.id;
    var cutoff := m.at - c.unservedTimeout;
    assert Happens(c, s, m, states[n + 1]);
    WakeIsNext(c, s, m.step.order, m.at);
    SweepExpiresExactly(c, s, m.step.order, m.at, a);
    if a !in s.links {
      UnexpiredMembers(s, a, Queue(s, a), cutoff, id);
      EnqueuedAt(c, states, moments, e, n);
      ClockTellsLastServed(c, states, moments, n, a);
      LastIsLatest(states, moments, n, a, cutoff);
    }
  }
}

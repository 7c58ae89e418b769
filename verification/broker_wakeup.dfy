/** No lost wake-up: the sweep loop never sleeps on work it could place. */
module BrokerWakeup {
  import opened Basics
  import opened Events
  import opened BrokerSpec
  import opened BrokerSound

  /** The agents the current sweep has still to look at. */
  function ToVisit(s: State): seq<AgentRef> {
    match s.sweep
    case Scanning(left, _) => left
    case Offering(agent, _, _, left, _) => [agent] + left
    case _ => []
  }

  /** Nothing can be placed for the agent now, or its provider did not accept an offer in this sweep. */
  predicate Attended(s: State, unaccepted: set<AgentRef>, a: AgentRef) {
    Queue(s, a) == [] || a !in s.links || !HasRoom(s, s.links[a].key) || a in unaccepted
  }

  ghost predicate Watching(s: State, unaccepted: set<AgentRef>) {
    s.workToDo || s.sweep.Stopped? || s.sweep.Ready? ||
    forall a :: a in ToVisit(s) || Attended(s, unaccepted, a)
  }

  /** No queue gets its first entry, no agent a connection, no provider its first free slot. */
  ghost predicate Tightens(s: State, t: State) {
    && (forall a :: Queue(t, a) != [] ==> Queue(s, a) != [])
    && (forall a :: a in t.links ==> a in s.links && t.links[a] == s.links[a])
    && (forall k :: HasRoom(t, k) ==> HasRoom(s, k))
  }

  lemma TightensAttended(s: State, t: State, before: set<AgentRef>, after: set<AgentRef>, a: AgentRef)
    requires Tightens(s, t) && Attended(s, before, a) && before <= after
    ensures Attended(t, after, a)
  {
  }

  predicate SameOffers(s: State, t: State) {
    t.pending == s.pending && t.links == s.links && t.capacity == s.capacity
  }

  /** Only queues, links and buckets matter. */
  lemma TightensReads(s: State, t: State, u: State, v: State)
    requires Tightens(s, t) && SameOffers(s, u) && SameOffers(t, v)
    ensures Tightens(u, v)
  {
    assert forall a :: Queue(u, a) == Queue(s, a) && Queue(v, a) == Queue(t, a);
    assert forall k :: HasRoom(u, k) == HasRoom(s, k) && HasRoom(v, k) == HasRoom(t, k);
  }

  lemma TightensSelf(s: State, t: State)
    requires SameOffers(s, t)
    ensures Tightens(s, t)
  {
    assert forall a :: Queue(t, a) == Queue(s, a);
    assert forall k :: HasRoom(t, k) == HasRoom(s, k);
  }

  lemma TightensTransitive(s: State, t: State, u: State)
    requires Tightens(s, t) && Tightens(t, u)
    ensures Tightens(s, u)
  {
  }

  lemma NoteTightens(c: Config, s: State, key: Key, counter: Counter, now: Time)
    ensures Tightens(s, NoteAbnormal(c, s, key, counter, now))
  {
  }

  lemma TakeOverTightens(s: State, h: nat, key: Key)
    requires WellFormed(s) && h < |s.made|
    ensures Tightens(s, TakeOver(s, h, key))
  {
    TakeOverFrame(s, h, key);
    hide TakeOver;
  }

  lemma UnqueueTightens(s: State, agent: AgentRef, id: RunId)
    ensures Tightens(s, Unqueue(s, agent, id))
  {
    RemoveFirstMembers(Queue(s, agent), id);
    hide RemoveFirst;
  }

  /** Freeing a slot sets the event, so forgetting either wakes the loop or frees nothing. */
  lemma EndWakes(s: State, h: nat)
    requires WellFormed(s) && h < |s.made|
    ensures var t := End(s, h); t.workToDo || Tightens(s, t)
    ensures End(s, h).sweep == s.sweep && (s.workToDo ==> End(s, h).workToDo)
  {
  }

  lemma PushTightens(c: Config, s: State, id: RunId, cmd: Command, now: Time)
    requires WellFormed(s)
    ensures var t := PushTo(c, s, id, cmd, now); Tightens(s, t) && t.sweep == s.sweep && t.workToDo == s.workToDo
  {
    hide NoteAbnormal, Tightens;
    var t := PushTo(c, s, id, cmd, now);
    if id in s.tracked && cmd.Fail? && Named(s, id).claimedBy.Some? {
      var key := Named(s, id).claimedBy.value;
      NoteTightens(c, s, key, Abandoned, now);
      TightensReads(s, NoteAbnormal(c, s, key, Abandoned, now), s, t);
    } else {
      TightensSelf(s, t);
    }
  }

  lemma TakeTightens(c: Config, s: State, h: nat, task: nat, now: Time)
    requires WellFormed(s) && CanTake(s, h, task)
    ensures var t := TakeCommand(c, s, h, task, now); Tightens(s, t) && t.sweep == s.sweep && t.workToDo == s.workToDo
  {
    hide PushTo, Tightens;
    if Malformed(s.made[h].inQueue[0]) {
      PushTightens(c, Drained(s, h), s.made[h].id, Fail(MALFORMED_REASON), now);
      var t := TakeCommand(c, s, h, task, now);
      TightensReads(Drained(s, h), t, s, t);
    } else {
      TightensSelf(s, StartHandling(s, h, task));
    }
  }

  lemma CompleteWakes(s: State, h: nat, task: nat)
    requires WellFormed(s) && CanComplete(s, h, task)
    ensures var t := CompleteCommand(s, h, task);
      (t.workToDo || Tightens(s, t)) && t.sweep == s.sweep && (s.workToDo ==> t.workToDo)
  {
    hide End, Tightens;
    var r := s.made[h];
    if Closing(r, r.pipelines[task].cmd) {
      var u := WithRun(s, h, r.(pipelines := RemoveAt(r.pipelines, task)));
      EndWakes(u, h);
      if !End(u, h).workToDo {
        TightensReads(u, End(u, h), s, End(u, h));
      }
    } else {
      TightensSelf(s, CompleteCommand(s, h, task));
    }
  }

  lemma FinishShotWakes(s: State, h: nat, task: nat)
    requires WellFormed(s) && CanFinish(s, h, task)
    ensures var t := FinishShot(s, h, task);
      (t.workToDo || Tightens(s, t)) && t.sweep == s.sweep && (s.workToDo ==> t.workToDo)
  {
    hide End;
    var r := s.made[h];
    EndWakes(WithRun(s, h, r.(finishers := RemoveAt(r.finishers, task))), h);
  }

  lemma LateAckTightens(c: Config, s: State, id: RunId, claimant: Key, now: Time)
    requires WellFormed(s)
    ensures var t := AcceptLateAck(c, s, id, claimant, now);
      Tightens(s, t) && t.sweep == s.sweep && t.workToDo == s.workToDo
  {
    hide NoteAbnormal, TakeOver, Unqueue;
    if LateAckAllowed(s, id, claimant) {
      var u := TakeOver(s, s.tracked[id], claimant);
      var v := Unqueue(u, Named(s, id).agent, id);
      TakeOverFrame(s, s.tracked[id], claimant);
      TakeOverTightens(s, s.tracked[id], claimant);
      UnqueueFrame(u, Named(s, id).agent, id);
      UnqueueTightens(u, Named(s, id).agent, id);
      NoteTightens(c, v, claimant, AnsweredLate, now);
      hide Tightens;
      TightensTransitive(s, u, v);
      TightensTransitive(s, v, AcceptLateAck(c, s, id, claimant, now));
    }
  }

  lemma AcceptedTightens(s: State)
    requires WellFormed(s) && s.sweep.Offering?
    ensures Tightens(s, OfferAccepted(s))
  {
    hide TakeOver, Unqueue;
    var u := TakeOver(s, s.sweep.run, s.sweep.provider.key);
    TakeOverTightens(s, s.sweep.run, s.sweep.provider.key);
    UnqueueTightens(u, s.sweep.agent, s.made[s.sweep.run].id);
    TightensTransitive(s, u, Unqueue(u, s.sweep.agent, s.made[s.sweep.run].id));
  }

  lemma RefusedTightens(s: State, reason: string)
    requires WellFormed(s) && s.sweep.Offering?
    ensures Tightens(s, OfferRefused(s, reason))
  {
    hide Unqueue, Tightens;
    var u := SpawnFinisher(s, s.sweep.run, Fail(reason));
    UnqueueTightens(u, s.sweep.agent, s.made[s.sweep.run].id);
    TightensReads(u, Unqueue(u, s.sweep.agent, s.made[s.sweep.run].id), s, OfferRefused(s, reason));
  }

  lemma DeclinedTightens(c: Config, s: State, now: Time)
    requires WellFormed(s) && s.sweep.Offering?
    ensures Tightens(s, OfferDeclined(c, s, now))
  {
    hide NoteAbnormal;
    NoteTightens(c, s, s.sweep.provider.key, Misdeclared, now);
  }

  lemma AnswerTightens(c: Config, s: State, answer: Answer, now: Time)
    requires WellFormed(s) && s.sweep.Offering?
    ensures Tightens(s, AnswerOffer(c, s, answer, now))
  {
    hide NoteAbnormal, OfferDeclined, OfferAccepted, OfferRefused;
    match answer
    case NoAnswer => NoteTightens(c, s, s.sweep.provider.key, Unanswered, now);
    case Refused(reason) => RefusedTightens(s, reason);
    case Declined => DeclinedTightens(c, s, now);
    case Accepted => AcceptedTightens(s);
  }

  /** The agents whose offer in the latest sweep was declined or not answered. */
  function Unaccepted(c: Config, states: seq<State>, moments: seq<Moment>, n: nat): set<AgentRef>
    requires Execution(c, states, moments) && n <= |moments|
  {
    if n == 0 then {} else AfterStep(states[n - 1], moments[n - 1].step, Unaccepted(c, states, moments, n - 1))
  }

  function AfterStep(s: State, step: Step, unaccepted: set<AgentRef>): set<AgentRef> {
    if step.Wake? then {}
    else if step.Answered? && (step.answer.Declined? || step.answer.NoAnswer?) && s.sweep.Offering?
    then unaccepted + {s.sweep.agent}
    else unaccepted
  }

  lemma WatchingWake(c: Config, s: State, order: seq<AgentRef>, now: Time)
    requires WellFormed(s) && Enabled(s, Wake(order))
    ensures Watching(WakeUp(c, s, order, now), {})
  {
    hide ExpireAgents;
    var t := ExpireAgents(s, order, now - c.unservedTimeout);
    ExpireAgentsIsExpiry(s, order, now - c.unservedTimeout);
    assert t.pending.Keys == s.pending.Keys;
    forall a | a !in order ensures Queue(WakeUp(c, s, order, now), a) == [] {
      assert a !in s.pending.Keys;
    }
  }

  lemma ScanTightens(s: State)
    requires WellFormed(s) && s.sweep.Scanning?
    ensures Tightens(s, ScanNext(s))
  {
    hide Offerable, ScannedSweep;
  }

  /** The agent a scan step moves past has nothing that could be placed. */
  lemma ScanMovesOn(s: State, unaccepted: set<AgentRef>)
    requires WellFormed(s) && s.sweep.Scanning? && s.sweep.left != []
    ensures var t := ScanNext(s);
      && t.workToDo == s.workToDo
      && (ToVisit(t) == ToVisit(s) || (ToVisit(t) == ToVisit(s)[1..] && Attended(t, unaccepted, ToVisit(s)[0])))
  {
    hide Offerable;
  }

  lemma WatchingScan(s: State, unaccepted: set<AgentRef>)
    requires WellFormed(s) && s.sweep.Scanning? && Watching(s, unaccepted)
    ensures Watching(ScanNext(s), unaccepted)
  {
    var t := ScanNext(s);
    ScanTightens(s);
    hide Tightens, Attended;
    if s.sweep.left != [] {
      ScanMovesOn(s, unaccepted);
      hide ScanNext;
      if !t.workToDo {
        forall a ensures a in ToVisit(t) || Attended(t, unaccepted, a) {
          if Attended(s, unaccepted, a) {
            TightensAttended(s, t, unaccepted, unaccepted, a);
          } else {
            assert a in ToVisit(s);
          }
        }
      }
    } else if !s.workToDo {
      forall a ensures Attended(t, unaccepted, a) {
        TightensAttended(s, t, unaccepted, unaccepted, a);
      }
    }
  }

  lemma WatchingAnswer(c: Config, s: State, answer: Answer, now: Time, unaccepted: set<AgentRef>)
    requires WellFormed(s) && s.sweep.Offering? && Watching(s, unaccepted)
    ensures Watching(AnswerOffer(c, s, answer, now), AfterStep(s, Answered(answer), unaccepted))
  {
    var t := AnswerOffer(c, s, answer, now);
    var after := AfterStep(s, Answered(answer), unaccepted);
    AnswerTightens(c, s, answer, now);
    AnswerPosition(c, s, answer, now);
    hide AnswerOffer, Tightens;
    if !t.workToDo {
      forall a ensures a in ToVisit(t) || Attended(t, after, a) {
        if Attended(s, unaccepted, a) {
          TightensAttended(s, t, unaccepted, after, a);
        }
      }
    }
  }

  lemma AnswerPosition(c: Config, s: State, answer: Answer, now: Time)
    requires WellFormed(s) && s.sweep.Offering?
    ensures var t := AnswerOffer(c, s, answer, now);
      && t.workToDo == s.workToDo && t.sweep.Scanning?
      && t.sweep.left == if answer.Accepted? || answer.Refused? then [s.sweep.agent] + s.sweep.left else s.sweep.left
  {
    hide NoteAbnormal, Unqueue, TakeOver;
    var h, key := s.sweep.run, s.sweep.provider.key;
    TakeOverFrame(s, h, key);
    UnqueueFrame(TakeOver(s, h, key), s.sweep.agent, s.made[h].id);
    if answer.Refused? {
      UnqueueFrame(SpawnFinisher(s, h, Fail(answer.reason)), s.sweep.agent, s.made[h].id);
    }
  }

  /** A step outside the loop either sets the event or tightens everything. */
  lemma WatchingElsewhere(s: State, t: State, unaccepted: set<AgentRef>)
    requires Watching(s, unaccepted) && t.sweep == s.sweep && (s.workToDo ==> t.workToDo)
    requires t.workToDo || Tightens(s, t)
    ensures Watching(t, unaccepted)
  {
    hide Tightens;
    if !t.workToDo && !s.sweep.Ready? && !s.sweep.Stopped? {
      forall a ensures a in ToVisit(t) || Attended(t, unaccepted, a) {
        if Attended(s, unaccepted, a) {
          TightensAttended(s, t, unaccepted, unaccepted, a);
        }
      }
    }
  }

  lemma CallerSteps(c: Config, s: State, step: Step, now: Time)
    requires WellFormed(s) && (step.Enqueue? || step.Attach? || step.Detach? || step.Cancel?)
    ensures var t := Next(c, s, step, now);
      (t.workToDo || Tightens(s, t)) && t.sweep == s.sweep && (s.workToDo ==> t.workToDo)
  {
    hide WakeUp, ScanNext, AnswerOffer, PushTo, AcceptLateAck, TakeCommand, CompleteCommand, FinishShot;
  }

  lemma WatchingNext(c: Config, s: State, step: Step, now: Time, unaccepted: set<AgentRef>)
    requires WellFormed(s) && Enabled(s, step) && Watching(s, unaccepted)
    ensures Watching(Next(c, s, step, now), AfterStep(s, step, unaccepted))
  {
    hide WakeUp, ScanNext, AnswerOffer, PushTo, AcceptLateAck, TakeCommand, CompleteCommand, FinishShot, Tightens;
    match step
    case Start =>
    case Wake(order) => WatchingWake(c, s, order, now);
    case Scan => WatchingScan(s, unaccepted);
    case Answered(answer) => WatchingAnswer(c, s, answer, now, unaccepted);
    case Push(id, cmd) =>
      PushTightens(c, s, id, cmd, now);
      WatchingElsewhere(s, PushTo(c, s, id, cmd, now), unaccepted);
    case LateAck(id, claimant) =>
      LateAckTightens(c, s, id, claimant, now);
      WatchingElsewhere(s, AcceptLateAck(c, s, id, claimant, now), unaccepted);
    case Take(h, task) =>
      TakeTightens(c, s, h, task, now);
      WatchingElsewhere(s, TakeCommand(c, s, h, task, now), unaccepted);
    case Complete(h, task) => CompleteWakes(s, h, task); WatchingElsewhere(s, CompleteCommand(s, h, task), unaccepted);
    case FinishOneShot(h, task) =>
      FinishShotWakes(s, h, task);
      WatchingElsewhere(s, FinishShot(s, h, task), unaccepted);
    case _ => CallerSteps(c, s, step, now); WatchingElsewhere(s, Next(c, s, step, now), unaccepted);
  }

  lemma {:induction false} AlwaysWatching(c: Config, states: seq<State>, moments: seq<Moment>, n: nat)
    requires Execution(c, states, moments) && n <= |moments|
    ensures Watching(states[n], Unaccepted(c, states, moments, n))
  {
    hide Next, Enabled, Watching;
    if n > 0 {
      AlwaysWatching(c, states, moments, n - 1);
      assert Happens(c, states[n - 1], moments[n - 1], states[n - 1 + 1]);
      WatchingNext(c, states[n - 1], moments[n - 1].step, moments[n - 1].at, Unaccepted(c, states, moments, n - 1));
    } else {
      WatchingInitially();
    }
  }

  lemma WatchingInitially()
    ensures Watching(INITIAL, {})
  {
  }

  /** Whenever the loop sleeps with its event clear, every agent with queued runs is unserved, or its provider's bucket
      is full, or an offer of this agent was not accepted in the sweep just made. */
  lemma NothingToPlace(c: Config, states: seq<State>, moments: seq<Moment>, n: nat, a: AgentRef)
    requires Execution(c, states, moments) && n <= |moments|
    requires states[n].sweep.Asleep? && !states[n].workToDo && Queue(states[n], a) != []
    ensures || a !in states[n].links || !HasRoom(states[n], states[n].links[a].key)
            || a in Unaccepted(c, states, moments, n)
  {
    AlwaysWatching(c, states, moments, n);
    assert Attended(states[n], Unaccepted(c, states, moments, n), a);
  }
}

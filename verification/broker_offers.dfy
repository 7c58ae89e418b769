/**
 What the sweep offers and when it goes round again, told by what has happened so far: only a run nobody has
 cancelled, to the connection of its agent, below what the provider first declared; and once more exactly after a
 sweep that placed something.
 */
module BrokerOffers {
  import opened Basics
  import opened Events
  import opened BrokerSpec
  import opened BrokerSound
  import opened BrokerFigures
  import opened BrokerGrace
  import opened BrokerOvertaken

  // ------------------------------------------------------------------------------- who is cancelled

  /** The `i`th moment requests that run object `h` be cancelled. */
  predicate CancelledAt(states: seq<State>, moments: seq<Moment>, i: nat, h: nat)
    requires |states| == |moments| + 1 && i < |moments|
  {
    moments[i].step.Cancel? && moments[i].step.id in states[i].tracked && states[i].tracked[moments[i].step.id] == h
  }

  predicate EverCancelled(states: seq<State>, moments: seq<Moment>, n: nat, h: nat)
    requires |states| == |moments| + 1 && n <= |moments|
  {
    exists i :: 0 <= i < n && CancelledAt(states, moments, i, h)
  }

  /** No run is made and the loop stays where it is. */
  predicate Aside(s: State, t: State) {
    |t.made| == |s.made| && t.sweep == s.sweep
  }

  lemma PushIsAside(c: Config, s: State, id: RunId, cmd: Command, now: Time)
    requires WellFormed(s)
    ensures Aside(s, PushTo(c, s, id, cmd, now))
  {
    hide NoteAbandoned;
  }

  lemma TakeIsAside(c: Config, s: State, h: nat, task: nat, now: Time)
    requires WellFormed(s) && CanTake(s, h, task)
    ensures Aside(s, TakeCommand(c, s, h, task, now))
  {
    hide PushTo, Drained, StartHandling;
    DrainIsAside(s, h);
    if Malformed(s.made[h].inQueue[0]) {
      PushIsAside(c, Drained(s, h), s.made[h].id, Fail(MALFORMED_REASON), now);
    } else {
      StartIsAside(s, h, task);
    }
  }

  lemma DrainIsAside(s: State, h: nat)
    requires WellFormed(s) && h < |s.made|
    ensures Aside(s, Drained(s, h))
  {
  }

  lemma StartIsAside(s: State, h: nat, task: nat)
    requires WellFormed(s) && CanTake(s, h, task)
    ensures Aside(s, StartHandling(s, h, task))
  {
  }

  lemma EndIsAside(s: State, h: nat, r: RunRecord)
    requires WellFormed(s) && h < |s.made| && r.id == s.made[h].id
    ensures Aside(s, End(WithRun(s, h, r), h))
  {
    hide End;
    EndEffect(WithRun(s, h, r), h);
  }

  lemma CompleteIsAside(s: State, h: nat, task: nat)
    requires WellFormed(s) && CanComplete(s, h, task)
    ensures Aside(s, CompleteCommand(s, h, task))
  {
    hide End;
    EndIsAside(s, h, s.made[h].(pipelines := RemoveAt(s.made[h].pipelines, task)));
  }

  lemma ShotIsAside(s: State, h: nat, task: nat)
    requires WellFormed(s) && CanFinish(s, h, task)
    ensures Aside(s, FinishShot(s, h, task))
  {
    hide End;
    EndIsAside(s, h, s.made[h].(finishers := RemoveAt(s.made[h].finishers, task)));
  }

  lemma AckIsAside(c: Config, s: State, id: RunId, claimant: Key, now: Time)
    requires WellFormed(s)
    ensures Aside(s, AcceptLateAck(c, s, id, claimant, now))
  {
    hide NoteAbnormal, Unqueue;
    if LateAckAllowed(s, id, claimant) {
      UnqueueFrame(TakeOver(s, s.tracked[id], claimant), Named(s, id).agent, id);
    }
  }

  lemma CancelIsAside(s: State, id: RunId)
    requires WellFormed(s)
    ensures Aside(s, CancelRun(s, id))
  {
  }

  lemma OthersAreAside(c: Config, s: State, step: Step, now: Time)
    requires WellFormed(s) && Enabled(s, step)
    requires !step.Enqueue? && !step.Start? && !step.Wake? && !step.Scan? && !step.Answered?
    ensures Aside(s, Next(c, s, step, now))
  {
    hide PushTo, AcceptLateAck, TakeCommand, CompleteCommand, FinishShot, CancelRun;
    match step {
      case Push(id, cmd) => PushIsAside(c, s, id, cmd, now);
      case LateAck(id, claimant) => AckIsAside(c, s, id, claimant, now);
      case Take(h, task) => TakeIsAside(c, s, h, task, now);
      case Complete(h, task) => CompleteIsAside(s, h, task);
      case FinishOneShot(h, task) => ShotIsAside(s, h, task);
      case Cancel(id) => CancelIsAside(s, id);
      case _ =>
    }
  }

  lemma LoopMakesNone(c: Config, s: State, step: Step, now: Time)
    requires WellFormed(s) && Enabled(s, step) && (step.Wake? || step.Scan? || step.Answered?)
    ensures |Next(c, s, step, now).made| == |s.made|
  {
    hide WakeUp, ScanNext, AnswerOffer;
    match step {
      case Wake(order) => WakeMakesNone(c, s, order, now);
      case Scan => ScanMakesNone(s);
      case Answered(answer) => AnswerMakesNone(c, s, answer, now);
      case _ =>
    }
  }

  lemma WakeMakesNone(c: Config, s: State, order: seq<AgentRef>, now: Time)
    requires WellFormed(s)
    ensures |WakeUp(c, s, order, now).made| == |s.made|
  {
    hide ExpireAgents;
    ExpireAgentsIsExpiry(s, order, now - c.unservedTimeout);
  }

  lemma ScanMakesNone(s: State)
    requires WellFormed(s) && s.sweep.Scanning?
    ensures |ScanNext(s).made| == |s.made|
  {
    hide ScannedQueues, ScannedSweep;
  }

  lemma AnswerMakesNone(c: Config, s: State, answer: Answer, now: Time)
    requires WellFormed(s) && s.sweep.Offering?
    ensures |AnswerOffer(c, s, answer, now).made| == |s.made|
  {
    hide NoteAbnormal, Unqueue;
    var h, agent := s.sweep.run, s.sweep.agent;
    UnqueueFrame(TakeOver(s, h, s.sweep.provider.key), agent, s.made[h].id);
    if answer.Refused? {
      UnqueueFrame(SpawnFinisher(s, h, Fail(answer.reason)), agent, s.made[h].id);
    }
  }

  /** Runs are made by enqueuing, and not cancelled then. */
  lemma MadeUncancelled(c: Config, s: State, step: Step, now: Time, h: nat)
    requires WellFormed(s) && Enabled(s, step) && |s.made| <= h < |Next(c, s, step, now).made|
    ensures !Next(c, s, step, now).made[h].cancelRequested
  {
    if step.Wake? || step.Scan? || step.Answered? {
      LoopMakesNone(c, s, step, now);
    } else if !step.Enqueue? && !step.Start? {
      OthersAreAside(c, s, step, now);
    } else {
      EnqueuedUncancelled(c, s, step, now, h);
    }
    hide Next, Enabled;
  }

  lemma EnqueuedUncancelled(c: Config, s: State, step: Step, now: Time, h: nat)
    requires WellFormed(s) && (step.Enqueue? || step == Start) && Enabled(s, step)
    requires |s.made| <= h < |Next(c, s, step, now).made|
    ensures !Next(c, s, step, now).made[h].cancelRequested
  {
    hide WakeUp, ScanNext, AnswerOffer, PushTo, AcceptLateAck, TakeCommand, CompleteCommand, FinishShot, CancelRun;
  }

  /** A run object says a cancel was requested if and only if one was, while its id named it. */
  lemma {:induction false} FlagIffCancelled(c: Config, states: seq<State>, moments: seq<Moment>, n: nat, h: nat)
    requires Execution(c, states, moments) && n <= |moments| && h < |states[n].made|
    ensures states[n].made[h].cancelRequested <==> EverCancelled(states, moments, n, h)
  {
    hide Next, Enabled;
    if n > 0 {
      var s, m := states[n - 1], moments[n - 1];
      assert Happens(c, s, m, states[n - 1 + 1]);
      if h < |s.made| {
        FlagIffCancelled(c, states, moments, n - 1, h);
        NothingFreed(c, s, h, m.step, m.at);
        assert CancelsIt(s, m.step, h) == CancelledAt(states, moments, n - 1, h);
      } else {
        MadeUncancelled(c, s, m.step, m.at, h);
        NotYetMade(c, states, moments, n, h);
      }
    }
  }

  lemma {:induction false} NotYetMade(c: Config, states: seq<State>, moments: seq<Moment>, n: nat, h: nat)
    requires Execution(c, states, moments) && 0 < n <= |moments| && |states[n - 1].made| <= h
    ensures !EverCancelled(states, moments, n, h)
  {
    hide Next, Enabled;
    forall i | 0 <= i < n ensures !CancelledAt(states, moments, i, h) {
      RunsStay(c, states, moments, i, n - 1);
    }
  }

  lemma {:induction false} RunsStay(c: Config, states: seq<State>, moments: seq<Moment>, i: nat, n: nat)
    requires Execution(c, states, moments) && i <= n <= |moments|
    ensures |states[i].made| <= |states[n].made|
  {
    hide Next, Enabled;
    if i < n {
      RunsStay(c, states, moments, i, n - 1);
      assert Happens(c, states[n - 1], moments[n - 1], states[n - 1 + 1]);
      if |states[n - 1].made| > 0 {
        NothingFreed(c, states[n - 1], |states[n - 1].made| - 1, moments[n - 1].step, moments[n - 1].at);
      }
    }
  }

  // ----------------------------------------------------------------------------------- what is offered

  lemma ScanOffers(s: State)
    requires WellFormed(s) && s.sweep.Scanning? && ScanNext(s).sweep.Offering?
    ensures var t, agent := ScanNext(s), ScanNext(s).sweep.agent;
      && agent in s.links && t.sweep.provider == s.links[agent] && HasRoom(s, s.links[agent].key)
      && Queue(t, agent) != [] && Queue(t, agent)[0] in s.tracked
      && t.sweep.run == s.tracked[Queue(t, agent)[0]] && !Named(s, Queue(t, agent)[0]).cancelRequested
      && t == s.(pending := t.pending, sweep := t.sweep)
  {
    hide Offerable;
  }

  /** Whatever is offered is what the head of its agent's queue names, has never been asked to stop, and goes to the
      agent's own connection, whose provider first declared no limit or more than it has in flight. */
  lemma OfferIsDue(c: Config, states: seq<State>, moments: seq<Moment>, n: nat)
    requires Execution(c, states, moments) && n < |moments|
    requires moments[n].step.Scan? && states[n + 1].sweep.Offering?
    ensures var s, offer := states[n], states[n + 1].sweep;
      var queue := Queue(states[n + 1], offer.agent);
      && offer.agent in s.links && offer.provider == s.links[offer.agent]
      && queue != [] && queue[0] in s.tracked && offer.run == s.tracked[queue[0]]
      && !EverCancelled(states, moments, n, offer.run)
      && (match FirstFigure(moments, n, offer.provider.key)
          case None => false
          case Some(None) => true
          case Some(Some(limit)) => InFlight(s, offer.provider.key) < limit)
  {
    hide Next, Enabled, ScanNext, Queue, FirstFigure, EverCancelled, Sound;
    var s := states[n];
    assert Happens(c, s, moments[n], states[n + 1]);
    assert s.sweep.Scanning? by { ScanIsEnabled(s); }
    ScanIsNext(c, s, moments[n].at);
    ScanOffers(s);
    var offer := states[n + 1].sweep;
    FlagIffCancelled(c, states, moments, n, offer.run);
    AlwaysSound(c, states, moments, n);
    LinkedHaveBuckets(s, offer.agent);
    BucketHoldsFirstFigure(c, states, moments, n, offer.provider.key);
  }

  lemma ScanIsEnabled(s: State)
    ensures Enabled(s, Scan) <==> s.sweep.Scanning?
  {
  }

  lemma ScanIsNext(c: Config, s: State, now: Time)
    requires WellFormed(s) && s.sweep.Scanning?
    ensures Next(c, s, Scan, now) == ScanNext(s)
  {
    hide ScanNext;
  }

  lemma LinkedHaveBuckets(s: State, a: AgentRef)
    requires Sound(s) && a in s.links
    ensures s.links[a].key in s.capacity
  {
  }

  /** What each answer does to the run on offer: accepted it is claimed, told so, and given a pipeline if it has
      handlers; refused it is to be failed with the provider's own reason; either way it leaves the queue. Anything else
      leaves it where it was. */
  lemma AnswerDecides(c: Config, s: State, answer: Answer, now: Time)
    requires WellFormed(s) && s.sweep.Offering?
    ensures var t, h, agent := AnswerOffer(c, s, answer, now), s.sweep.run, s.sweep.agent;
      var r := s.made[h];
      match answer
      case Accepted =>
        && t.made == s.made[h := r.(claimedBy := Some(s.sweep.provider.key), inQueue := r.inQueue + [Claim],
                                    pipelines := if r.id in s.handlers then r.pipelines + [Waiting] else r.pipelines)]
        && Queue(t, agent) == RemoveFirst(Queue(s, agent), r.id)
      case Refused(reason) =>
        && t.made == s.made[h := r.(finishers := r.finishers + [Fail(reason)])]
        && Queue(t, agent) == RemoveFirst(Queue(s, agent), r.id)
      case _ => t.made == s.made && t.pending == s.pending
  {
    hide NoteAbnormal, TakeOver, SpawnFinisher, Unqueue, Queue;
    var h, agent := s.sweep.run, s.sweep.agent;
    var id, u := s.made[h].id, TakeOver(s, h, s.sweep.provider.key);
    match answer {
      case Accepted =>
        TakeOverEffect(s, h, s.sweep.provider.key);
        TakenFromQueue(s, u, agent, id);
        SameQueue(Unqueue(u, agent, id), AnswerOffer(c, s, answer, now));
      case Refused(reason) =>
        SpawnEffect(s, h, Fail(reason));
        TakenFromQueue(s, SpawnFinisher(s, h, Fail(reason)), agent, id);
        SameQueue(Unqueue(SpawnFinisher(s, h, Fail(reason)), agent, id), AnswerOffer(c, s, answer, now));
      case _ =>
    }
  }

  lemma TakeOverEffect(s: State, h: nat, key: Key)
    requires WellFormed(s) && h < |s.made|
    ensures var t, r := TakeOver(s, h, key), s.made[h];
      && t.pending == s.pending
      && t.made == s.made[h := r.(claimedBy := Some(key), inQueue := r.inQueue + [Claim],
                                  pipelines := if r.id in s.handlers then r.pipelines + [Waiting] else r.pipelines)]
  {
  }

  lemma SpawnEffect(s: State, h: nat, cmd: Command)
    requires WellFormed(s) && h < |s.made|
    ensures var t := SpawnFinisher(s, h, cmd);
      t == s.(made := s.made[h := s.made[h].(finishers := s.made[h].finishers + [cmd])])
  {
  }

  lemma TakenFromQueue(s: State, u: State, agent: AgentRef, id: RunId)
    requires u.pending == s.pending
    ensures Queue(Unqueue(u, agent, id), agent) == RemoveFirst(Queue(s, agent), id)
    ensures Unqueue(u, agent, id) == u.(pending := Unqueue(u, agent, id).pending)
  {
    SameQueue(s, u);
    UnqueueQueues(u, agent, id);
    UnqueueFrame(u, agent, id);
  }

  // ------------------------------------------------------------------------------- once more round

  /** An offer has been accepted since the last wake-up. */
  predicate PlacedSinceWaking(moments: seq<Moment>, n: nat)
    requires n <= |moments|
  {
    n > 0 && !moments[n - 1].step.Wake?
    && (moments[n - 1].step == Answered(Accepted) || PlacedSinceWaking(moments, n - 1))
  }

  predicate Sweeping(sweep: Sweep) {
    sweep.Scanning? || sweep.Offering?
  }

  predicate RemembersPlacing(s: State, placed: bool) {
    Sweeping(s.sweep) ==> s.sweep.placed == placed
  }

  lemma PlacingNext(c: Config, s: State, step: Step, now: Time, placed: bool)
    requires WellFormed(s) && Enabled(s, step) && RemembersPlacing(s, placed)
    ensures RemembersPlacing(Next(c, s, step, now), !step.Wake? && (step == Answered(Accepted) || placed))
  {
    hide ExpireAgents, ScannedQueues, Offerable, AnswerOffer;
    match step {
      case Answered(answer) => AnswerPlaces(c, s, answer, now, placed);
      case Wake(_) => {}
      case Scan => {}
      case Enqueue(_, _, _) => {}
      case Start => {}
      case _ =>
        hide Next;
        OthersAreAside(c, s, step, now);
    }
  }

  lemma AnswerPlaces(c: Config, s: State, answer: Answer, now: Time, placed: bool)
    requires WellFormed(s) && s.sweep.Offering? && s.sweep.placed == placed
    ensures RemembersPlacing(AnswerOffer(c, s, answer, now), answer.Accepted? || placed)
  {
  }

  lemma {:induction false} AlwaysRemembersPlacing(c: Config, states: seq<State>, moments: seq<Moment>, n: nat)
    requires Execution(c, states, moments) && n <= |moments|
    ensures RemembersPlacing(states[n], PlacedSinceWaking(moments, n))
  {
    hide Next, Enabled;
    if n > 0 {
      AlwaysRemembersPlacing(c, states, moments, n - 1);
      assert Happens(c, states[n - 1], moments[n - 1], states[n - 1 + 1]);
      PlacingNext(c, states[n - 1], moments[n - 1].step, moments[n - 1].at, PlacedSinceWaking(moments, n - 1));
    }
  }

  /** When a sweep has looked at every agent the loop goes round again at once if an offer of that sweep was accepted,
      and otherwise to sleep. */
  lemma AgainIffPlaced(c: Config, states: seq<State>, moments: seq<Moment>, n: nat)
    requires Execution(c, states, moments) && n < |moments|
    requires moments[n].step.Scan? && states[n].sweep.Scanning? && states[n].sweep.left == []
    ensures states[n + 1].sweep == if PlacedSinceWaking(moments, n) then Ready else Asleep
  {
    hide PlacedSinceWaking;
    assert Happens(c, states[n], moments[n], states[n + 1]);
    AlwaysRemembersPlacing(c, states, moments, n);
  }

  // ----------------------------------------------------------------------------------- who has handlers

  /** The ids a step lets go of: that of the run it ends. */
  function LetGo(s: State, step: Step): set<RunId>
    requires WellFormed(s) && Enabled(s, step)
  {
    match step
    case Complete(h, task) => if Closing(s.made[h], s.made[h].pipelines[task].cmd) then {s.made[h].id} else {}
    case FinishOneShot(h, _) => {s.made[h].id}
    case _ => {}
  }

  predicate LetsGoOf(s: State, t: State, ids: set<RunId>) {
    t.tracked == s.tracked - ids && t.handlers == s.handlers - ids
  }

  lemma EndLetsGo(s: State, h: nat, r: RunRecord)
    requires WellFormed(s) && h < |s.made| && r.id == s.made[h].id
    ensures LetsGoOf(s, End(WithRun(s, h, r), h), {s.made[h].id})
  {
    hide End;
    EndEffect(WithRun(s, h, r), h);
  }

  lemma KeepsAll(s: State, t: State)
    requires t.tracked == s.tracked && t.handlers == s.handlers
    ensures LetsGoOf(s, t, {})
  {
  }

  lemma CompleteLetsGo(s: State, h: nat, task: nat)
    requires WellFormed(s) && CanComplete(s, h, task)
    ensures LetsGoOf(s, CompleteCommand(s, h, task), LetGo(s, Complete(h, task)))
  {
    hide End, LetsGoOf;
    var r := s.made[h];
    EndLetsGo(s, h, r.(pipelines := RemoveAt(r.pipelines, task)));
    KeepsAll(s, WithRun(s, h, r.(pipelines := r.pipelines[task := Waiting])));
  }

  lemma ShotLetsGo(s: State, h: nat, task: nat)
    requires WellFormed(s) && CanFinish(s, h, task)
    ensures LetsGoOf(s, FinishShot(s, h, task), {s.made[h].id})
  {
    hide End, LetsGoOf;
    EndLetsGo(s, h, s.made[h].(finishers := RemoveAt(s.made[h].finishers, task)));
  }

  lemma AnswerLetsGo(c: Config, s: State, answer: Answer, now: Time)
    requires WellFormed(s) && s.sweep.Offering?
    ensures LetsGoOf(s, AnswerOffer(c, s, answer, now), {})
  {
    hide NoteAbnormal, Unqueue, TakeOver, LetsGoOf;
    var h, agent, key := s.sweep.run, s.sweep.agent, s.sweep.provider.key;
    TakeOverFrame(s, h, key);
    UnqueueFrame(TakeOver(s, h, key), agent, s.made[h].id);
    if answer.Refused? {
      UnqueueFrame(SpawnFinisher(s, h, Fail(answer.reason)), agent, s.made[h].id);
    }
    KeepsAll(s, AnswerOffer(c, s, answer, now));
  }

  lemma AckLetsGo(c: Config, s: State, id: RunId, claimant: Key, now: Time)
    requires WellFormed(s)
    ensures LetsGoOf(s, AcceptLateAck(c, s, id, claimant, now), {})
  {
    hide NoteAbnormal, Unqueue, TakeOver, LetsGoOf;
    if LateAckAllowed(s, id, claimant) {
      TakeOverFrame(s, s.tracked[id], claimant);
      UnqueueFrame(TakeOver(s, s.tracked[id], claimant), Named(s, id).agent, id);
    }
    KeepsAll(s, AcceptLateAck(c, s, id, claimant, now));
  }

  lemma PushLetsGo(c: Config, s: State, id: RunId, cmd: Command, now: Time)
    requires WellFormed(s)
    ensures LetsGoOf(s, PushTo(c, s, id, cmd, now), {})
  {
    hide NoteAbandoned;
  }

  lemma TakeLetsGo(c: Config, s: State, h: nat, task: nat, now: Time)
    requires WellFormed(s) && CanTake(s, h, task)
    ensures LetsGoOf(s, TakeCommand(c, s, h, task, now), {})
  {
    hide PushTo, Drained, StartHandling, LetsGoOf;
    if Malformed(s.made[h].inQueue[0]) {
      PushLetsGo(c, Drained(s, h), s.made[h].id, Fail(MALFORMED_REASON), now);
      SameAfterDraining(s, h, TakeCommand(c, s, h, task, now));
    } else {
      StartLetsGo(s, h, task);
    }
  }

  lemma SameAfterDraining(s: State, h: nat, t: State)
    requires WellFormed(s) && h < |s.made| && LetsGoOf(Drained(s, h), t, {})
    ensures LetsGoOf(s, t, {})
  {
  }

  lemma StartLetsGo(s: State, h: nat, task: nat)
    requires WellFormed(s) && CanTake(s, h, task)
    ensures LetsGoOf(s, StartHandling(s, h, task), {})
  {
  }

  lemma WakeLetsGo(c: Config, s: State, order: seq<AgentRef>, now: Time)
    requires WellFormed(s)
    ensures LetsGoOf(s, WakeUp(c, s, order, now), {})
  {
    hide ExpireAgents;
    ExpireAgentsIsExpiry(s, order, now - c.unservedTimeout);
  }

  lemma ScanLetsGo(s: State)
    requires WellFormed(s) && s.sweep.Scanning?
    ensures LetsGoOf(s, ScanNext(s), {})
  {
    hide ScannedQueues, ScannedSweep;
  }

  lemma CancelLetsGo(s: State, id: RunId)
    requires WellFormed(s)
    ensures LetsGoOf(s, CancelRun(s, id), {})
  {
  }

  lemma StepLetsGo(c: Config, s: State, step: Step, now: Time)
    requires WellFormed(s) && Enabled(s, step) && !step.Enqueue?
    ensures LetsGoOf(s, Next(c, s, step, now), LetGo(s, step))
  {
    hide WakeUp, ScanNext, AnswerOffer, PushTo, AcceptLateAck, TakeCommand, CompleteCommand, FinishShot,
      CancelRun, EnqueueRun;
    match step {
      case Wake(order) => WakeLetsGo(c, s, order, now);
      case Scan => ScanLetsGo(s);
      case Answered(answer) => AnswerLetsGo(c, s, answer, now);
      case Push(id, cmd) => PushLetsGo(c, s, id, cmd, now);
      case LateAck(id, claimant) => AckLetsGo(c, s, id, claimant, now);
      case Cancel(id) => CancelLetsGo(s, id);
      case Take(h, task) => TakeLetsGo(c, s, h, task, now);
      case Complete(h, task) => CompleteLetsGo(s, h, task);
      case FinishOneShot(h, task) => ShotLetsGo(s, h, task);
      case _ =>
    }
  }

  /** The `e`th moment enqueues the id with handlers, and the id has named a run ever since. */
  predicate HandledSince(states: seq<State>, moments: seq<Moment>, e: nat, n: nat, id: RunId)
    requires |states| == |moments| + 1 && e < n <= |moments|
  {
    && moments[e].step.Enqueue? && moments[e].step.id == id && moments[e].step.withHandlers
    && !states[e].sweep.Stopped?
    && forall k :: e < k <= n ==> id in states[k].tracked
  }

  predicate EverHandled(states: seq<State>, moments: seq<Moment>, n: nat, id: RunId)
    requires |states| == |moments| + 1 && n <= |moments|
  {
    exists e :: 0 <= e < n && HandledSince(states, moments, e, n, id)
  }

  lemma EnqueueHandles(c: Config, s: State, step: Step, now: Time, id: RunId)
    requires WellFormed(s) && step.Enqueue? && Enabled(s, step)
    ensures var t := Next(c, s, step, now);
      && (id in t.tracked <==> id in s.tracked || (step.id == id && !s.sweep.Stopped?))
      && (id in t.handlers <==> id in s.handlers || (step.id == id && step.withHandlers && !s.sweep.Stopped?))
  {
    hide WakeUp, ScanNext, AnswerOffer, PushTo, AcceptLateAck, TakeCommand, CompleteCommand, FinishShot, CancelRun;
  }

  lemma HandledOneMore(states: seq<State>, moments: seq<Moment>, n: nat, id: RunId)
    requires |states| == |moments| + 1 && 0 < n <= |moments|
    ensures EverHandled(states, moments, n, id)
       <==> && id in states[n].tracked
            && (EverHandled(states, moments, n - 1, id)
                || (var step := moments[n - 1].step;
                    step.Enqueue? && step.id == id && step.withHandlers && !states[n - 1].sweep.Stopped?))
  {
    if EverHandled(states, moments, n, id) {
      var e: nat :| e < n && HandledSince(states, moments, e, n, id);
      if e < n - 1 {
        assert HandledSince(states, moments, e, n - 1, id);
      }
    }
    if id in states[n].tracked {
      if EverHandled(states, moments, n - 1, id) {
        var e: nat :| e < n - 1 && HandledSince(states, moments, e, n - 1, id);
        assert HandledSince(states, moments, e, n, id);
      }
      var step := moments[n - 1].step;
      if step.Enqueue? && step.id == id && step.withHandlers && !states[n - 1].sweep.Stopped? {
        assert HandledSince(states, moments, n - 1, n, id);
      }
    }
  }

  /** An id has handlers if and only if it was enqueued with them and has named a run ever since: they go with the
      run that is let go of, whichever of its objects that is. */
  lemma {:induction false} HandlersGoWithTheRun(c: Config, states: seq<State>, moments: seq<Moment>, n: nat, id: RunId)
    requires Execution(c, states, moments) && n <= |moments|
    ensures id in states[n].handlers <==> EverHandled(states, moments, n, id)
  {
    hide Next, Enabled, HandledSince, LetGo;
    if n > 0 {
      var s, m := states[n - 1], moments[n - 1];
      HandlersGoWithTheRun(c, states, moments, n - 1, id);
      assert Happens(c, s, m, states[n - 1 + 1]);
      HandledOneMore(states, moments, n, id);
      if EverHandled(states, moments, n - 1, id) {
        HandledWereTracked(states, moments, n - 1, id);
      }
      hide EverHandled;
      if m.step.Enqueue? {
        EnqueueHandles(c, s, m.step, m.at, id);
      } else {
        StepLetsGo(c, s, m.step, m.at);
      }
    }
  }

  lemma HandledWereTracked(states: seq<State>, moments: seq<Moment>, n: nat, id: RunId)
    requires |states| == |moments| + 1 && n <= |moments| && EverHandled(states, moments, n, id)
    ensures id in states[n].tracked
  {
  }
}

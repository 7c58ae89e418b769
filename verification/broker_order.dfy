/**
 No overtaking: an agent's queue is its enqueue history with the departed runs filtered out, a run
 that has left never comes back, and when a run is offered every earlier run of its agent has left.
 */
module BrokerOrder {
  import opened Basics
  import opened Events
  import opened BrokerSpec
  import opened BrokerSound
  import opened BrokerStranded

  /** The latest run object enqueued under `id` among the first `n`. */
  function Newest(made: seq<RunRecord>, id: RunId, n: nat): Option<nat>
    requires n <= |made|
  {
    if n == 0 then None else if made[n - 1].id == id then Some(n - 1) else Newest(made, id, n - 1)
  }

  function NewestOf(s: State, id: RunId): Option<nat> {
    Newest(s.made, id, |s.made|)
  }

  lemma {:induction false} NewestIsLast(made: seq<RunRecord>, id: RunId, n: nat)
    requires n <= |made|
    ensures match Newest(made, id, n)
      case None => forall k :: 0 <= k < n ==> made[k].id != id
      case Some(h) => h < n && made[h].id == id && forall k :: h < k < n ==> made[k].id != id
  {
    if n > 0 {
      NewestIsLast(made, id, n - 1);
    }
  }

  /** The queue of one agent runs from older to newer runs of that agent. */
  predicate Ordered(s: State, a: AgentRef, queue: seq<RunId>) {
    && (forall i :: 0 <= i < |queue| ==>
          NewestOf(s, queue[i]).Some? && NewestOf(s, queue[i]).value < |s.made|
          && s.made[NewestOf(s, queue[i]).value].agent == a)
    && (forall i, j :: 0 <= i < j < |queue| ==> NewestOf(s, queue[i]).value < NewestOf(s, queue[j]).value)
  }

  predicate OfferedFirst(s: State)
    requires WellFormed(s)
  {
    s.sweep.Offering? ==>
      && s.made[s.sweep.run].agent == s.sweep.agent
      && forall id :: id in Queue(s, s.sweep.agent) ==> NewestOf(s, id).Some? && s.sweep.run <= NewestOf(s, id).value
  }

  ghost predicate InOrder(s: State) {
    && WellFormed(s)
    && (forall a :: Ordered(s, a, Queue(s, a)))
    && (forall id :: id in s.tracked ==> NewestOf(s, id) == Some(s.tracked[id]))
    && OfferedFirst(s)
  }

  /** No run object is made, and none changes its id or agent; ids may stop being tracked. */
  predicate SameRuns(s: State, t: State) {
    && |t.made| == |s.made|
    && (forall h :: 0 <= h < |s.made| ==> t.made[h].id == s.made[h].id && t.made[h].agent == s.made[h].agent)
    && (forall id :: id in t.tracked ==> id in s.tracked && t.tracked[id] == s.tracked[id])
  }

  lemma {:induction false} SameNewest(made: seq<RunRecord>, other: seq<RunRecord>, id: RunId, n: nat)
    requires n <= |made| && n <= |other|
    requires forall h :: 0 <= h < n ==> made[h].id == other[h].id
    ensures Newest(made, id, n) == Newest(other, id, n)
  {
    if n > 0 {
      SameNewest(made, other, id, n - 1);
    }
  }

  /** A step that adds nothing to any queue and keeps the order of what stays. */
  lemma OrderKept(s: State, t: State)
    requires InOrder(s) && WellFormed(t) && SameRuns(s, t)
    requires forall a :: Ordered(s, a, Queue(t, a))
    requires forall a, id :: id in Queue(t, a) ==> id in Queue(s, a)
    requires t.sweep.Offering? ==> t.sweep == s.sweep
    ensures InOrder(t)
  {
    forall id ensures NewestOf(t, id) == NewestOf(s, id) {
      SameNewest(s.made, t.made, id, |s.made|);
    }
  }

  lemma OrderSameQueues(s: State, t: State)
    requires InOrder(s) && WellFormed(t) && SameRuns(s, t) && t.pending == s.pending
    requires t.sweep.Offering? ==> t.sweep == s.sweep
    ensures InOrder(t)
  {
    forall a ensures Queue(t, a) == Queue(s, a) {
    }
    OrderKept(s, t);
  }

  lemma OrderWithRun(s: State, h: nat, r: RunRecord)
    requires InOrder(s) && h < |s.made| && r.id == s.made[h].id && r.agent == s.made[h].agent
    ensures InOrder(WithRun(s, h, r))
  {
    hide Ordered, NewestOf, OfferedFirst;
    OrderSameQueues(s, WithRun(s, h, r));
  }

  lemma OrderedWithout(s: State, a: AgentRef, queue: seq<RunId>, id: RunId)
    requires Ordered(s, a, queue)
    ensures Ordered(s, a, RemoveFirst(queue, id))
  {
    hide NewestOf, RemoveFirst;
    if id in queue {
      var i := RemoveFirstSplits(queue, id);
    } else {
      RemoveFirstAbsent(queue, id);
    }
  }

  lemma OrderUnqueue(s: State, agent: AgentRef, id: RunId)
    requires InOrder(s)
    ensures InOrder(Unqueue(s, agent, id))
  {
    hide RemoveFirst, Ordered;
    var t := Unqueue(s, agent, id);
    OrderedWithout(s, agent, Queue(s, agent), id);
    RemoveFirstMembers(Queue(s, agent), id);
    forall a ensures Ordered(s, a, Queue(t, a)) {
      assert Ordered(s, a, Queue(s, a));
    }
    OrderKept(s, t);
  }

  lemma OrderAccepted(s: State)
    requires InOrder(s) && s.sweep.Offering?
    ensures InOrder(OfferAccepted(s))
  {
    hide InOrder, TakeOver, Unqueue, Queue;
    OrderIsWellFormed(s);
    var u := TakeOver(s, s.sweep.run, s.sweep.provider.key);
    TakeOverFrame(s, s.sweep.run, s.sweep.provider.key);
    OrderSameQueues(s, u);
    OrderUnqueue(u, s.sweep.agent, s.made[s.sweep.run].id);
    UnqueueFrame(u, s.sweep.agent, s.made[s.sweep.run].id);
    OrderSameQueues(Unqueue(u, s.sweep.agent, s.made[s.sweep.run].id), OfferAccepted(s));
  }

  lemma OrderRefused(s: State, reason: string)
    requires InOrder(s) && s.sweep.Offering?
    ensures InOrder(OfferRefused(s, reason))
  {
    hide InOrder, Unqueue;
    OrderIsWellFormed(s);
    var u := SpawnFinisher(s, s.sweep.run, Fail(reason));
    OrderSameQueues(s, u);
    OrderUnqueue(u, s.sweep.agent, s.made[s.sweep.run].id);
    UnqueueFrame(u, s.sweep.agent, s.made[s.sweep.run].id);
    OrderSameQueues(Unqueue(u, s.sweep.agent, s.made[s.sweep.run].id), OfferRefused(s, reason));
  }

  lemma OrderIsWellFormed(s: State)
    requires InOrder(s)
    ensures WellFormed(s)
  {
  }

  lemma OrderLateAck(c: Config, s: State, id: RunId, claimant: Key, now: Time)
    requires InOrder(s)
    ensures InOrder(AcceptLateAck(c, s, id, claimant, now))
  {
    hide InOrder, NoteAbnormal, TakeOver, Unqueue;
    OrderIsWellFormed(s);
    if LateAckAllowed(s, id, claimant) {
      var h := s.tracked[id];
      var u := TakeOver(s, h, claimant);
      TakeOverFrame(s, h, claimant);
      OrderSameQueues(s, u);
      OrderUnqueue(u, s.made[h].agent, id);
      UnqueueFrame(u, s.made[h].agent, id);
      OrderSameQueues(Unqueue(u, s.made[h].agent, id), AcceptLateAck(c, s, id, claimant, now));
    }
  }

  lemma OrderUnanswered(c: Config, s: State, now: Time)
    requires InOrder(s) && s.sweep.Offering?
    ensures InOrder(OfferUnanswered(c, s, now))
  {
    hide InOrder, NoteAbnormal;
    OrderIsWellFormed(s);
    OrderSameQueues(s, OfferUnanswered(c, s, now));
  }

  lemma OrderDeclined(c: Config, s: State, now: Time)
    requires InOrder(s) && s.sweep.Offering?
    ensures InOrder(OfferDeclined(c, s, now))
  {
    hide InOrder, NoteAbnormal;
    OrderIsWellFormed(s);
    OrderSameQueues(s, OfferDeclined(c, s, now));
  }

  lemma OrderAnswer(c: Config, s: State, answer: Answer, now: Time)
    requires InOrder(s) && s.sweep.Offering?
    ensures InOrder(AnswerOffer(c, s, answer, now))
  {
    hide InOrder, OfferUnanswered, OfferDeclined, OfferAccepted, OfferRefused;
    OrderIsWellFormed(s);
    match answer
    case NoAnswer => OrderUnanswered(c, s, now);
    case Refused(reason) => OrderRefused(s, reason);
    case Declined => OrderDeclined(c, s, now);
    case Accepted => OrderAccepted(s);
  }

  lemma OrderExpireOne(s: State, agent: AgentRef, id: RunId, cutoff: Time)
    requires InOrder(s)
    ensures InOrder(ExpireOne(s, agent, id, cutoff))
  {
    hide InOrder, Unqueue;
    OrderIsWellFormed(s);
    if Expires(s, agent, id, cutoff) {
      OrderUnqueue(s, agent, id);
      UnqueueFrame(s, agent, id);
      OrderSameQueues(Unqueue(s, agent, id), ExpireOne(s, agent, id, cutoff));
    }
  }

  lemma {:induction false} OrderExpireQueue(s: State, agent: AgentRef, ids: seq<RunId>, cutoff: Time)
    requires InOrder(s)
    ensures InOrder(ExpireQueue(s, agent, ids, cutoff))
    decreases |ids|
  {
    hide InOrder, ExpireOne;
    OrderIsWellFormed(s);
    if ids != [] {
      OrderExpireOne(s, agent, ids[0], cutoff);
      OrderExpireQueue(ExpireOne(s, agent, ids[0], cutoff), agent, ids[1..], cutoff);
    }
  }

  lemma {:induction false} OrderExpireAgents(s: State, agents: seq<AgentRef>, cutoff: Time)
    requires InOrder(s)
    ensures InOrder(ExpireAgents(s, agents, cutoff))
    decreases |agents|
  {
    hide InOrder, ExpireQueue;
    OrderIsWellFormed(s);
    if agents != [] {
      if agents[0] in s.links {
        OrderExpireAgents(s, agents[1..], cutoff);
      } else {
        OrderExpireQueue(s, agents[0], Queue(s, agents[0]), cutoff);
        OrderExpireAgents(ExpireQueue(s, agents[0], Queue(s, agents[0]), cutoff), agents[1..], cutoff);
      }
    }
  }

  lemma OrderWake(c: Config, s: State, order: seq<AgentRef>, now: Time)
    requires InOrder(s)
    ensures InOrder(WakeUp(c, s, order, now))
  {
    hide InOrder, ExpireAgents;
    OrderIsWellFormed(s);
    OrderExpireAgents(s, order, now - c.unservedTimeout);
    OrderSameQueues(ExpireAgents(s, order, now - c.unservedTimeout), WakeUp(c, s, order, now));
  }

  lemma OrderDrop(s: State, a: AgentRef)
    requires InOrder(s) && a in s.pending && s.sweep.Scanning?
    ensures InOrder(s.(pending := s.pending[a := Offerable(s, s.pending[a])]))
  {
    hide Offerable;
    var t := s.(pending := s.pending[a := Offerable(s, s.pending[a])]);
    assert Ordered(s, a, Queue(s, a));
    assert Ordered(s, a, Offerable(s, s.pending[a]));
    forall b ensures Ordered(s, b, Queue(t, b)) {
      assert Ordered(s, b, Queue(s, b));
    }
    OrderKept(s, t);
  }

  lemma OrderSweep(s: State, sweep: Sweep)
    requires InOrder(s)
    requires sweep.Offering? ==>
      var queue := Queue(s, sweep.agent); queue != [] && queue[0] in s.tracked && sweep.run == s.tracked[queue[0]]
    ensures InOrder(s.(sweep := sweep))
  {
    var t := s.(sweep := sweep);
    if sweep.Offering? {
      assert Ordered(s, sweep.agent, Queue(s, sweep.agent));
    }
    forall a ensures Ordered(t, a, Queue(t, a)) {
      assert Ordered(s, a, Queue(s, a));
    }
  }

  lemma OrderScan(s: State)
    requires InOrder(s) && s.sweep.Scanning?
    ensures InOrder(ScanNext(s))
  {
    hide InOrder, Offerable;
    OrderIsWellFormed(s);
    var left := s.sweep.left;
    if left == [] || left[0] !in s.links || left[0] !in s.pending {
      OrderSweep(s, ScannedSweep(s));
    } else {
      OrderDrop(s, left[0]);
      OrderSweep(s.(pending := ScannedQueues(s)), ScannedSweep(s));
    }
  }

  ghost predicate Unqueued(s: State, id: RunId) {
    forall a :: id !in Queue(s, a)
  }

  ghost predicate UnqueuedStep(s: State, step: Step) {
    step.Enqueue? ==> Unqueued(s, step.id)
  }

  /** Callers enqueue only ids that are in no queue. */
  ghost predicate UnqueuedExecution(c: Config, states: seq<State>, moments: seq<Moment>) {
    && Execution(c, states, moments)
    && (forall i :: 0 <= i < |moments| ==> UnqueuedStep(states[i], moments[i].step))
  }

  lemma OrderEnqueue(s: State, id: RunId, agent: AgentRef, withHandlers: bool, now: Time)
    requires InOrder(s) && Unqueued(s, id)
    ensures InOrder(EnqueueRun(s, id, agent, withHandlers, now))
  {
    hide Newest, OfferedFirst;
    var t := EnqueueRun(s, id, agent, withHandlers, now);
    if !s.sweep.Stopped? {
      NewestAppended(s, t, id);
      forall a ensures Ordered(t, a, Queue(t, a)) {
        assert Ordered(s, a, Queue(s, a));
      }
      assert OfferedFirst(t) by { OfferedFirstAppended(s, t, id, agent); }
    }
  }

  lemma NewestAppended(s: State, t: State, id: RunId)
    requires |t.made| == |s.made| + 1 && t.made[..|s.made|] == s.made && t.made[|s.made|].id == id
    ensures NewestOf(t, id) == Some(|s.made|)
    ensures forall other :: other != id ==> NewestOf(t, other) == NewestOf(s, other)
    ensures forall other :: NewestOf(s, other).Some? ==> NewestOf(s, other).value < |s.made|
  {
    forall other ensures other != id ==> NewestOf(t, other) == NewestOf(s, other)
      ensures NewestOf(s, other).Some? ==> NewestOf(s, other).value < |s.made|
    {
      NewestIsLast(s.made, other, |s.made|);
      SameNewest(s.made, t.made, other, |s.made|);
    }
  }

  lemma OfferedFirstAppended(s: State, t: State, id: RunId, agent: AgentRef)
    requires InOrder(s) && WellFormed(t) && t.sweep == s.sweep
    requires t.pending == s.pending[agent := Queue(s, agent) + [id]] && s.made <= t.made
    requires NewestOf(t, id) == Some(|s.made|) && id !in Queue(s, agent)
    requires forall a, other :: other in Queue(s, a) ==> NewestOf(t, other) == NewestOf(s, other)
    ensures OfferedFirst(t)
  {
    hide NewestOf, Ordered;
    if s.sweep.Offering? {
      forall other | other in Queue(t, s.sweep.agent)
        ensures NewestOf(t, other).Some? && s.sweep.run <= NewestOf(t, other).value
      {
        assert other == id || other in Queue(s, s.sweep.agent);
      }
    }
  }

  lemma OrderPush(c: Config, s: State, id: RunId, cmd: Command, now: Time)
    requires InOrder(s)
    ensures InOrder(PushTo(c, s, id, cmd, now))
  {
    hide InOrder, NoteAbandoned;
    OrderIsWellFormed(s);
    OrderSameQueues(s, PushTo(c, s, id, cmd, now));
  }

  lemma OrderTake(c: Config, s: State, h: nat, task: nat, now: Time)
    requires InOrder(s) && CanTake(s, h, task)
    ensures InOrder(TakeCommand(c, s, h, task, now))
  {
    hide InOrder, PushTo;
    OrderIsWellFormed(s);
    var r := s.made[h];
    if Malformed(r.inQueue[0]) {
      OrderWithRun(s, h, r.(inQueue := []));
      OrderPush(c, Drained(s, h), r.id, Fail(MALFORMED_REASON), now);
    } else {
      OrderWithRun(s, h, r.(inQueue := r.inQueue[1..], pipelines := r.pipelines[task := Handling(r.inQueue[0])]));
    }
  }

  lemma OrderEnd(s: State, h: nat, r: RunRecord)
    requires InOrder(s) && h < |s.made| && r.id == s.made[h].id && r.agent == s.made[h].agent
    ensures InOrder(End(WithRun(s, h, r), h))
  {
    hide InOrder, End;
    OrderIsWellFormed(s);
    EndEffect(WithRun(s, h, r), h);
    OrderSameQueues(s, End(WithRun(s, h, r), h));
  }

  lemma OrderComplete(s: State, h: nat, task: nat)
    requires InOrder(s) && CanComplete(s, h, task)
    ensures InOrder(CompleteCommand(s, h, task))
  {
    hide InOrder, End;
    OrderIsWellFormed(s);
    var r := s.made[h];
    if Closing(r, r.pipelines[task].cmd) {
      OrderEnd(s, h, r.(pipelines := RemoveAt(r.pipelines, task)));
    } else {
      OrderWithRun(s, h, r.(pipelines := r.pipelines[task := Waiting]));
    }
  }

  lemma OrderFinishShot(s: State, h: nat, task: nat)
    requires InOrder(s) && CanFinish(s, h, task)
    ensures InOrder(FinishShot(s, h, task))
  {
    hide InOrder, End;
    OrderEnd(s, h, s.made[h].(finishers := RemoveAt(s.made[h].finishers, task)));
  }

  lemma OrderCancel(s: State, id: RunId)
    requires InOrder(s)
    ensures InOrder(CancelRun(s, id))
  {
    hide InOrder;
    OrderIsWellFormed(s);
    if id in s.tracked {
      var r := Named(s, id).(cancelRequested := true);
      OrderWithRun(s, s.tracked[id],
                   if r.claimedBy.Some? then r.(inQueue := r.inQueue + [RequestCancel])
                   else r.(finishers := r.finishers + [RequestCancel]));
    }
  }

  lemma OrderNext(c: Config, s: State, step: Step, now: Time)
    requires InOrder(s) && Enabled(s, step) && UnqueuedStep(s, step)
    ensures InOrder(Next(c, s, step, now))
  {
    hide InOrder, WakeUp, ScanNext, AnswerOffer, PushTo, AcceptLateAck, TakeCommand, CompleteCommand, FinishShot,
      EnqueueRun, CancelRun;
    OrderIsWellFormed(s);
    match step
    case Start => OrderSameQueues(s, s.(sweep := Ready, workToDo := false));
    case Enqueue(id, agent, withHandlers) => OrderEnqueue(s, id, agent, withHandlers, now);
    case Attach(connection, names) => OrderSameQueues(s, Register(s, connection, names));
    case Detach(agents) => OrderSameQueues(s, Withdraw(s, agents, now));
    case Wake(order) => OrderWake(c, s, order, now);
    case Scan => OrderScan(s);
    case Answered(answer) => OrderAnswer(c, s, answer, now);
    case Push(id, cmd) => OrderPush(c, s, id, cmd, now);
    case Cancel(id) => OrderCancel(s, id);
    case LateAck(id, claimant) => OrderLateAck(c, s, id, claimant, now);
    case Take(h, task) => OrderTake(c, s, h, task, now);
    case Complete(h, task) => OrderComplete(s, h, task);
    case FinishOneShot(h, task) => OrderFinishShot(s, h, task);
  }

  lemma {:induction false} AlwaysInOrder(c: Config, states: seq<State>, moments: seq<Moment>, n: nat)
    requires UnqueuedExecution(c, states, moments) && n < |states|
    ensures InOrder(states[n])
  {
    hide Next, Enabled;
    if n > 0 {
      AlwaysInOrder(c, states, moments, n - 1);
      assert UnqueuedStep(states[n - 1], moments[n - 1].step);
      assert Happens(c, states[n - 1], moments[n - 1], states[n - 1 + 1]);
      OrderNext(c, states[n - 1], moments[n - 1].step, moments[n - 1].at);
    }
  }

  // ------------------------------------------------------------------------- what it means

  /** Run `h` still waits in the queue of its agent `a`. */
  predicate Waits(s: State, a: AgentRef, h: nat) {
    && h < |s.made| && s.made[h].agent == a
    && NewestOf(s, s.made[h].id) == Some(h)
    && s.made[h].id in Queue(s, a)
  }

  /** The agent's enqueue history up to object `n`, the departed filtered out. */
  function StillWaiting(s: State, a: AgentRef, n: nat): seq<RunId>
    requires n <= |s.made|
  {
    if n == 0 then []
    else StillWaiting(s, a, n - 1) + if Waits(s, a, n - 1) then [s.made[n - 1].id] else []
  }

  /** In an ordered queue the runs below `n` come first; object `n` is there exactly if it waits. */
  lemma WaitingStep(s: State, a: AgentRef, n: nat, k: nat)
    requires InOrder(s) && n < |s.made| && k <= |Queue(s, a)|
    requires forall i :: 0 <= i < |Queue(s, a)| ==> (i < k <==> NewestOf(s, Queue(s, a)[i]).value < n)
    ensures if Waits(s, a, n)
      then k < |Queue(s, a)| && Queue(s, a)[k] == s.made[n].id
           && forall i :: 0 <= i < |Queue(s, a)| ==> (i < k + 1 <==> NewestOf(s, Queue(s, a)[i]).value < n + 1)
      else forall i :: 0 <= i < |Queue(s, a)| ==> (i < k <==> NewestOf(s, Queue(s, a)[i]).value < n + 1)
  {
    var queue := Queue(s, a);
    assert Ordered(s, a, queue);
    if Waits(s, a, n) {
      var i :| 0 <= i < |queue| && queue[i] == s.made[n].id;
      hide NewestOf;
      assert forall j :: 0 <= j < |queue| ==> (NewestOf(s, queue[j]).value < n <==> j < i);
    } else {
      forall i | 0 <= i < |queue| ensures NewestOf(s, queue[i]).value != n {
        NewestIsLast(s.made, queue[i], |s.made|);
      }
    }
  }

  lemma FirstOnly(s: State, a: AgentRef)
    requires InOrder(s)
    ensures forall i :: 0 <= i < |Queue(s, a)| ==> 0 <= NewestOf(s, Queue(s, a)[i]).value
  {
  }

  lemma {:induction false} WaitingPrefix(s: State, a: AgentRef, n: nat) returns (m: nat)
    requires InOrder(s) && n <= |s.made|
    ensures m <= |Queue(s, a)| && StillWaiting(s, a, n) == Queue(s, a)[..m]
    ensures forall i :: 0 <= i < |Queue(s, a)| ==> (i < m <==> NewestOf(s, Queue(s, a)[i]).value < n)
  {
    hide InOrder, NewestOf, Waits, Queue, Ordered;
    if n == 0 {
      m := 0;
      FirstOnly(s, a);
    } else {
      var k := WaitingPrefix(s, a, n - 1);
      WaitingStep(s, a, n - 1, k);
      m := if Waits(s, a, n - 1) then k + 1 else k;
      assert k < |Queue(s, a)| ==> Queue(s, a)[..k + 1] == Queue(s, a)[..k] + [Queue(s, a)[k]];
    }
  }

  lemma LastIsBelow(s: State, a: AgentRef, queue: seq<RunId>, m: nat)
    requires Ordered(s, a, queue) && m <= |queue|
    requires forall i :: 0 <= i < |queue| ==> (i < m <==> NewestOf(s, queue[i]).value < |s.made|)
    ensures m == |queue|
  {
    if queue != [] {
      assert NewestOf(s, queue[|queue| - 1]).value < |s.made|;
    }
  }

  lemma OrderedQueueIsHistory(s: State, a: AgentRef)
    requires InOrder(s)
    ensures Queue(s, a) == StillWaiting(s, a, |s.made|)
  {
    var m := WaitingPrefix(s, a, |s.made|);
    var queue := Queue(s, a);
    assert Ordered(s, a, queue);
    assert m == |queue| by { LastIsBelow(s, a, queue, m); }
    assert queue[..m] == queue;
  }

  /** Each agent's queue is exactly its enqueue history with the departed runs filtered out. */
  lemma QueueIsFilteredHistory(c: Config, states: seq<State>, moments: seq<Moment>, n: nat, a: AgentRef)
    requires UnqueuedExecution(c, states, moments) && n < |states|
    ensures Queue(states[n], a) == StillWaiting(states[n], a, |states[n].made|)
  {
    AlwaysInOrder(c, states, moments, n);
    OrderedQueueIsHistory(states[n], a);
  }

  lemma {:induction false} WaitingAreNewest(s: State, a: AgentRef, n: nat)
    requires n <= |s.made|
    ensures forall id :: id in StillWaiting(s, a, n) ==>
              NewestOf(s, id).Some? && NewestOf(s, id).value < n && s.made[NewestOf(s, id).value].agent == a
    ensures NoDuplicates(StillWaiting(s, a, n))
  {
    hide NewestOf;
    if n > 0 {
      WaitingAreNewest(s, a, n - 1);
    }
  }

  /** An id still in some queue breaks that queue's history the moment it is enqueued again. */
  lemma EnqueueKeepsHistoryIffUnqueued(s: State, id: RunId, agent: AgentRef, withHandlers: bool, now: Time)
    requires InOrder(s) && !s.sweep.Stopped?
    ensures var t := EnqueueRun(s, id, agent, withHandlers, now);
      (forall a :: Queue(t, a) == StillWaiting(t, a, |t.made|)) <==> Unqueued(s, id)
  {
    hide EnqueueRun, StillWaiting, InOrder;
    OrderIsWellFormed(s);
    var t := EnqueueRun(s, id, agent, withHandlers, now);
    if Unqueued(s, id) {
      OrderEnqueue(s, id, agent, withHandlers, now);
      forall a ensures Queue(t, a) == StillWaiting(t, a, |t.made|) {
        OrderedQueueIsHistory(t, a);
      }
    } else {
      var b :| id in Queue(s, b);
      QueuedIdBreaksHistory(s, id, agent, withHandlers, now, b);
    }
  }

  lemma QueuedIdBreaksHistory(s: State, id: RunId, agent: AgentRef, withHandlers: bool, now: Time, b: AgentRef)
    requires WellFormed(s) && !s.sweep.Stopped? && id in Queue(s, b)
    ensures var t := EnqueueRun(s, id, agent, withHandlers, now); Queue(t, b) != StillWaiting(t, b, |t.made|)
  {
    hide NewestOf, StillWaiting;
    var t := EnqueueRun(s, id, agent, withHandlers, now);
    NewestAppended(s, t, id);
    assert t.made[|s.made|].agent == agent;
    WaitingAreNewest(t, b, |t.made|);
    if b == agent {
      var i :| 0 <= i < |Queue(s, b)| && Queue(s, b)[i] == id;
      assert Queue(t, b) == Queue(s, b) + [id];
      assert Queue(t, b)[i] == Queue(t, b)[|Queue(s, b)|];
      assert !NoDuplicates(Queue(t, b));
    } else {
      assert id in Queue(t, b);
      assert id !in StillWaiting(t, b, |t.made|);
    }
  }

  /** While a run is on offer, every run of its agent enqueued before it has left the queue: claimed with a
      live pipeline, about to be ended by a one-shot, or ended. */
  lemma NoOvertaking(c: Config, states: seq<State>, moments: seq<Moment>, n: nat, earlier: nat)
    requires UnqueuedExecution(c, states, moments) && UncontestedExecution(c, states, moments)
    requires n < |states| && states[n].sweep.Offering?
    requires earlier < states[n].sweep.run && states[n].made[earlier].agent == states[n].sweep.agent
    ensures !Waits(states[n], states[n].sweep.agent, earlier)
    ensures if IsTracked(states[n], earlier) then Finishing(states[n].made[earlier]) else states[n].made[earlier].ended
  {
    AlwaysInOrder(c, states, moments, n);
    NoStrandedRun(c, states, moments, n, earlier);
  }
}

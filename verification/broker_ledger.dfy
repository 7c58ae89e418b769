/**
 The slot ledger: what `in_flight` counts, exactly, over every interleaving, and how far it can
 exceed a declared limit.
 */
module BrokerLedger {
  import opened Basics
  import opened Events
  import opened BrokerSpec
  import opened BrokerSound

  function ClaimedIds(s: State, key: Key): set<RunId>
    requires WellFormed(s)
  {
    set id | id in s.tracked && Named(s, id).claimedBy == Some(key)
  }

  /** Slots `key` is charged for beyond the tracked runs it holds. */
  function Excess(s: State, key: Key): int
    requires WellFormed(s)
  {
    InFlight(s, key) - |ClaimedIds(s, key)|
  }

  /** The slots one step loses for good: a decline with room fills the bucket, an acceptance of a run that
      is no longer tracked or that `key` already holds is charged again, and a claim is dropped without
      `forget` when the run's id is enqueued anew or its claim overwritten. */
  function PhantomGrowth(s: State, step: Step, key: Key): nat
    requires WellFormed(s) && Enabled(s, step)
  {
    match step
    case Enqueue(id, _, _) =>
      if !s.sweep.Stopped? && id in s.tracked && Named(s, id).claimedBy == Some(key) then 1 else 0
    case Answered(Declined) =>
      if s.sweep.provider.key == key && key in s.capacity && s.capacity[key].declared.Some? && s.capacity[key].HasRoom()
      then s.capacity[key].declared.value - s.capacity[key].inFlight else 0
    case Answered(Accepted) =>
      var h := s.sweep.run;
      var charged := s.sweep.provider.key == key;
      var tracked := s.made[h].id in s.tracked && s.tracked[s.made[h].id] == h;
      if charged then if tracked && s.made[h].claimedBy != Some(key) then 0 else 1
      else if tracked && s.made[h].claimedBy == Some(key) then 1 else 0
    case _ => 0
  }

  lemma SameClaims(s: State, t: State, key: Key)
    requires WellFormed(s) && WellFormed(t) && t.tracked == s.tracked && |s.made| <= |t.made|
    requires forall h :: 0 <= h < |s.made| ==> t.made[h].claimedBy == s.made[h].claimedBy
    ensures ClaimedIds(t, key) == ClaimedIds(s, key)
  {
  }

  lemma SameExcess(s: State, t: State, key: Key)
    requires WellFormed(s) && WellFormed(t) && t.tracked == s.tracked && |s.made| <= |t.made|
    requires forall h :: 0 <= h < |s.made| ==> t.made[h].claimedBy == s.made[h].claimedBy
    requires InFlight(t, key) == InFlight(s, key)
    ensures Excess(t, key) == Excess(s, key)
  {
    SameClaims(s, t, key);
  }

  /** What `forget` does to the claims: the id's is dropped, and only a held slot is given back. */
  lemma ForgetClaims(s: State, id: RunId, key: Key)
    requires Sound(s)
    ensures ClaimedIds(Forget(s, id), key) == ClaimedIds(s, key) - {id}
    ensures InFlight(Forget(s, id), key) ==
      if id in ClaimedIds(s, key) && InFlight(s, key) > 0 then InFlight(s, key) - 1 else InFlight(s, key)
  {
    if id in s.tracked {
      assert SoundRun(Named(s, id), s.capacity);
    }
  }

  lemma ForgetKeepsExcess(s: State, id: RunId, key: Key)
    requires Sound(s)
    requires Excess(s, key) >= 0
    ensures Excess(Forget(s, id), key) == Excess(s, key)
  {
    hide Forget, ClaimedIds, Sound;
    ForgetClaims(s, id, key);
  }

  lemma EndKeepsExcess(s: State, r: RunRecord, h: nat, key: Key)
    requires Sound(s) && h < |s.made| && r.id == s.made[h].id && SoundRun(r, s.capacity)
    requires r.claimedBy == s.made[h].claimedBy
    requires Excess(s, key) >= 0
    ensures Excess(End(WithRun(s, h, r), h), key) == Excess(s, key)
  {
    hide Forget;
    var u := WithRun(WithRun(s, h, r), h, r.(ended := true));
    assert Sound(u);
    SameExcess(s, u, key);
    ForgetKeepsExcess(u, r.id, key);
  }

  lemma TakeOverClaims(s: State, h: nat, claimant: Key, key: Key)
    requires WellFormed(s) && h < |s.made|
    ensures var id := s.made[h].id;
      ClaimedIds(TakeOver(s, h, claimant), key)
      == if id in s.tracked && s.tracked[id] == h then
           if claimant == key then ClaimedIds(s, key) + {id} else ClaimedIds(s, key) - {id}
         else ClaimedIds(s, key)
  {
    TakeOverFrame(s, h, claimant);
    hide TakeOver;
  }

  /** Taking a run over charges the claimant, and moves the claim if the run is tracked. */
  lemma TakeOverExcess(s: State, h: nat, claimant: Key, key: Key)
    requires Sound(s) && h < |s.made| && claimant in s.capacity
    ensures var tracked := s.made[h].id in s.tracked && s.tracked[s.made[h].id] == h;
      Excess(TakeOver(s, h, claimant), key) == Excess(s, key) +
        (if claimant == key then if tracked && s.made[h].claimedBy != Some(key) then 0 else 1
         else if tracked && s.made[h].claimedBy == Some(key) then 1 else 0)
  {
    hide Sound, ClaimedIds;
    SoundIsWellFormed(s);
    TakeOverClaims(s, h, claimant, key);
    var id, claims := s.made[h].id, ClaimedIds(s, key);
    ClaimedMembers(s, id, key);
    assert id in claims ==> claims + {id} == claims;
    assert id !in claims ==> claims - {id} == claims;
  }

  lemma NoteKeepsExcess(c: Config, s: State, k: Key, counter: Counter, now: Time, key: Key)
    requires Sound(s)
    ensures var t := NoteAbnormal(c, s, k, counter, now); WellFormed(t) && Excess(t, key) == Excess(s, key)
  {
    hide NoteAbnormal;
    SameClaims(s, NoteAbnormal(c, s, k, counter, now), key);
  }

  lemma PushKeepsExcess(c: Config, s: State, id: RunId, cmd: Command, now: Time, key: Key)
    requires Sound(s)
    ensures Excess(PushTo(c, s, id, cmd, now), key) == Excess(s, key)
  {
    hide NoteAbandoned, Excess;
    SameExcess(s, PushTo(c, s, id, cmd, now), key);
  }

  lemma DrainKeepsExcess(c: Config, s: State, h: nat, now: Time, key: Key)
    requires Sound(s) && h < |s.made|
    ensures Excess(PushTo(c, Drained(s, h), s.made[h].id, Fail(MALFORMED_REASON), now), key) == Excess(s, key)
  {
    hide PushTo, Excess, SoundRun, SoundLinks;
    SoundDrained(s, h);
    SameExcess(s, Drained(s, h), key);
    PushKeepsExcess(c, Drained(s, h), s.made[h].id, Fail(MALFORMED_REASON), now, key);
  }

  lemma StartKeepsExcess(s: State, h: nat, task: nat, key: Key)
    requires WellFormed(s) && CanTake(s, h, task)
    ensures Excess(StartHandling(s, h, task), key) == Excess(s, key)
  {
    hide Excess;
    SameExcess(s, StartHandling(s, h, task), key);
  }

  lemma TakeKeepsExcess(c: Config, s: State, h: nat, task: nat, now: Time, key: Key)
    requires Sound(s) && CanTake(s, h, task)
    ensures Excess(TakeCommand(c, s, h, task, now), key) == Excess(s, key)
  {
    hide PushTo, Excess, Drained, StartHandling;
    if Malformed(s.made[h].inQueue[0]) {
      DrainKeepsExcess(c, s, h, now, key);
    } else {
      StartKeepsExcess(s, h, task, key);
    }
  }

  lemma CompleteKeepsExcess(s: State, h: nat, task: nat, key: Key)
    requires Sound(s) && CanComplete(s, h, task)
    requires Excess(s, key) >= 0
    ensures Excess(CompleteCommand(s, h, task), key) == Excess(s, key)
  {
    hide End, Excess, Sound;
    var r := s.made[h];
    SoundHolds(s, h);
    if Closing(r, r.pipelines[task].cmd) {
      EndKeepsExcess(s, r.(pipelines := RemoveAt(r.pipelines, task)), h, key);
    } else {
      SameExcess(s, CompleteCommand(s, h, task), key);
    }
  }

  lemma SoundHolds(s: State, h: nat)
    requires Sound(s) && h < |s.made|
    ensures WellFormed(s) && SoundRun(s.made[h], s.capacity)
  {
  }

  lemma LateAckKeepsExcess(c: Config, s: State, id: RunId, claimant: Key, now: Time, key: Key)
    requires Sound(s)
    ensures Excess(AcceptLateAck(c, s, id, claimant, now), key) == Excess(s, key)
  {
    hide TakeOver, NoteAbnormal, Unqueue, Excess;
    if LateAckAllowed(s, id, claimant) {
      var h := s.tracked[id];
      var u := TakeOver(s, h, claimant);
      var v := Unqueue(u, s.made[h].agent, id);
      assert claimant in s.capacity;
      TakeOverExcess(s, h, claimant, key);
      SoundTakeOver(s, h, claimant);
      UnqueueFrame(u, s.made[h].agent, id);
      SameExcess(u, v, key);
      NoteKeepsExcess(c, v, claimant, AnsweredLate, now, key);
    }
  }

  lemma AcceptedExcess(s: State, key: Key)
    requires Sound(s) && s.sweep.Offering?
    ensures Excess(OfferAccepted(s), key) == Excess(s, key) + PhantomGrowth(s, Answered(Accepted), key)
  {
    hide TakeOver, RemoveFirst;
    var t := TakeOver(s, s.sweep.run, s.sweep.provider.key);
    TakeOverExcess(s, s.sweep.run, s.sweep.provider.key, key);
    SameClaims(t, OfferAccepted(s), key);
  }

  lemma DeclinedExcess(c: Config, s: State, now: Time, key: Key)
    requires Sound(s) && s.sweep.Offering?
    ensures Excess(OfferDeclined(c, s, now), key) == Excess(s, key) + PhantomGrowth(s, Answered(Declined), key)
  {
    hide NoteAbnormal;
    SameClaims(s, OfferDeclined(c, s, now), key);
  }

  lemma AnsweredExcess(c: Config, s: State, answer: Answer, now: Time, key: Key)
    requires Sound(s) && s.sweep.Offering?
    ensures Excess(AnswerOffer(c, s, answer, now), key) == Excess(s, key) + PhantomGrowth(s, Answered(answer), key)
  {
    hide OfferAccepted, OfferDeclined, NoteAbnormal, RemoveFirst;
    match answer
    case NoAnswer =>
      NoteKeepsExcess(c, s, s.sweep.provider.key, Unanswered, now, key);
      SameClaims(NoteAbnormal(c, s, s.sweep.provider.key, Unanswered, now), OfferUnanswered(c, s, now), key);
    case Refused(reason) => SameClaims(s, OfferRefused(s, reason), key);
    case Declined => DeclinedExcess(c, s, now, key);
    case Accepted => AcceptedExcess(s, key);
  }

  lemma WakeKeepsExcess(c: Config, s: State, order: seq<AgentRef>, now: Time, key: Key)
    requires Sound(s)
    ensures Excess(WakeUp(c, s, order, now), key) == Excess(s, key)
  {
    var t := ExpireAgents(s, order, now - c.unservedTimeout);
    ExpireAgentsIsExpiry(s, order, now - c.unservedTimeout);
    forall h | 0 <= h < |s.made| ensures t.made[h].claimedBy == s.made[h].claimedBy {
      assert Finished(s.made[h], t.made[h]);
    }
    SameClaims(s, WakeUp(c, s, order, now), key);
  }

  lemma EnqueueExcess(s: State, id: RunId, agent: AgentRef, withHandlers: bool, now: Time, key: Key)
    requires Sound(s)
    ensures Excess(EnqueueRun(s, id, agent, withHandlers, now), key)
         == Excess(s, key) + PhantomGrowth(s, Enqueue(id, agent, withHandlers), key)
  {
    hide Sound, ClaimedIds;
    SoundIsWellFormed(s);
    if !s.sweep.Stopped? {
      EnqueueClaims(s, id, agent, withHandlers, now, key);
    }
    ClaimedMembers(s, id, key);
  }

  lemma SoundIsWellFormed(s: State)
    requires Sound(s)
    ensures WellFormed(s)
  {
  }

  lemma ClaimedMembers(s: State, id: RunId, key: Key)
    requires WellFormed(s)
    ensures id in ClaimedIds(s, key) <==> id in s.tracked && Named(s, id).claimedBy == Some(key)
  {
  }

  lemma EnqueueClaims(s: State, id: RunId, agent: AgentRef, withHandlers: bool, now: Time, key: Key)
    requires WellFormed(s) && !s.sweep.Stopped?
    ensures var t := EnqueueRun(s, id, agent, withHandlers, now);
      ClaimedIds(t, key) == ClaimedIds(s, key) - {id} && InFlight(t, key) == InFlight(s, key)
  {
  }

  lemma ScanKeepsExcess(s: State, key: Key)
    requires Sound(s) && s.sweep.Scanning?
    ensures Excess(ScanNext(s), key) == Excess(s, key)
  {
    hide ScannedQueues, ScannedSweep, Excess, SoundRun, SoundLinks;
    SameExcess(s, ScanNext(s), key);
  }

  lemma RegisterKeepsExcess(s: State, connection: Connection, names: set<string>, key: Key)
    requires WellFormed(s)
    ensures var t := Register(s, connection, names); WellFormed(t) && Excess(t, key) == Excess(s, key)
  {
    hide Excess;
    SameExcess(s, Register(s, connection, names), key);
  }

  lemma DetachKeepsExcess(s: State, agents: set<AgentRef>, now: Time, key: Key)
    requires WellFormed(s)
    ensures var t := Withdraw(s, agents, now); WellFormed(t) && Excess(t, key) == Excess(s, key)
  {
    hide Excess;
    SameExcess(s, Withdraw(s, agents, now), key);
  }

  lemma CancelKeepsExcess(s: State, id: RunId, key: Key)
    requires WellFormed(s)
    ensures Excess(CancelRun(s, id), key) == Excess(s, key)
  {
    hide Excess;
    if id in s.tracked {
      SameExcess(s, CancelRun(s, id), key);
    }
  }

  lemma SimpleKeepsExcess(c: Config, s: State, step: Step, now: Time, key: Key)
    requires Sound(s) && Enabled(s, step)
    requires step.Start? || step.Attach? || step.Detach? || step.Cancel?
    ensures Excess(Next(c, s, step, now), key) == Excess(s, key)
  {
    hide Excess, Register, CancelRun, Withdraw;
    match step
    case Attach(connection, names) => RegisterKeepsExcess(s, connection, names, key);
    case Detach(agents) => DetachKeepsExcess(s, agents, now, key);
    case Cancel(id) => CancelKeepsExcess(s, id, key);
    case Start => SameExcess(s, s.(sweep := Ready, workToDo := false), key);
  }

  /** One step moves the excess by exactly its phantom growth: no other step ever loses or mints a slot. */
  lemma LedgerStep(c: Config, s: State, step: Step, now: Time, key: Key)
    requires Sound(s) && Enabled(s, step)
    requires Excess(s, key) >= 0
    ensures Excess(Next(c, s, step, now), key) == Excess(s, key) + PhantomGrowth(s, step, key)
  {
    hide Sound, WakeUp, ScanNext, AnswerOffer, PushTo, AcceptLateAck, TakeCommand, CompleteCommand, End, EnqueueRun,
      Excess;
    match step
    case Enqueue(id, agent, withHandlers) => EnqueueExcess(s, id, agent, withHandlers, now, key);
    case Wake(order) => WakeKeepsExcess(c, s, order, now, key);
    case Answered(answer) => AnsweredExcess(c, s, answer, now, key);
    case Push(id, cmd) => PushKeepsExcess(c, s, id, cmd, now, key);
    case LateAck(id, claimant) => LateAckKeepsExcess(c, s, id, claimant, now, key);
    case Take(h, task) => TakeKeepsExcess(c, s, h, task, now, key);
    case Complete(h, task) => CompleteKeepsExcess(s, h, task, key);
    case FinishOneShot(h, task) => FinishShotKeepsExcess(s, h, task, key);
    case Scan => ScanKeepsExcess(s, key);
    case _ => SimpleKeepsExcess(c, s, step, now, key);
  }

  lemma FinishShotKeepsExcess(s: State, h: nat, task: nat, key: Key)
    requires Sound(s) && CanFinish(s, h, task)
    requires Excess(s, key) >= 0
    ensures Excess(FinishShot(s, h, task), key) == Excess(s, key)
  {
    hide End;
    EndKeepsExcess(s, s.made[h].(finishers := RemoveAt(s.made[h].finishers, task)), h, key);
  }

  /** The slots `key` has lost to phantoms in the first `n` moments. */
  function Phantom(c: Config, states: seq<State>, moments: seq<Moment>, n: nat, key: Key): nat
    requires Execution(c, states, moments) && n <= |moments|
  {
    if n == 0 then 0
    else
      assert Happens(c, states[n - 1], moments[n - 1], states[n - 1 + 1]);
      Phantom(c, states, moments, n - 1, key) + PhantomGrowth(states[n - 1], moments[n - 1].step, key)
  }

  /** The exact slot ledger. */
  lemma {:induction false} SlotLedger(c: Config, states: seq<State>, moments: seq<Moment>, n: nat, key: Key)
    requires Execution(c, states, moments) && n <= |moments|
    ensures InFlight(states[n], key) == |ClaimedIds(states[n], key)| + Phantom(c, states, moments, n, key)
  {
    hide Next, PhantomGrowth, Sound, Enabled;
    if n > 0 {
      var s := states[n - 1];
      SlotLedger(c, states, moments, n - 1, key);
      AlwaysSound(c, states, moments, n - 1);
      assert Happens(c, states[n - 1], moments[n - 1], states[n - 1 + 1]);
      LedgerStep(c, s, moments[n - 1].step, moments[n - 1].at, key);
    }
  }

  /** So the `in_flight > 0` guard in `forget` always passes for a claimed run. */
  lemma ForgetGuardPasses(c: Config, states: seq<State>, moments: seq<Moment>, n: nat, id: RunId)
    requires Execution(c, states, moments) && n <= |moments|
    requires id in states[n].tracked && Named(states[n], id).claimedBy.Some?
    ensures var key := Named(states[n], id).claimedBy.value;
      key in states[n].capacity && states[n].capacity[key].inFlight > 0
  {
    var key := Named(states[n], id).claimedBy.value;
    SlotLedger(c, states, moments, n, key);
    AlwaysSound(c, states, moments, n);
    assert id in ClaimedIds(states[n], key);
    assert SoundRun(Named(states[n], id), states[n].capacity);
  }
}

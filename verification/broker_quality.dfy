/** The abnormality allowance: how often a provider can be unanswered or misdeclared, over any run. */
module BrokerQuality {
  import opened Basics
  import opened Events
  import opened BrokerSpec
  import opened BrokerSound

  /** `key` is connected, or an offer to it is outstanding. */
  predicate Active(s: State, key: Key) {
    ServedBy(s, key) != {} || (s.sweep.Offering? && s.sweep.provider.key == key)
  }

  /** The two counters an offer can raise. */
  predicate RaisedByOffers(counter: Counter) {
    counter.Unanswered? || counter.Misdeclared?
  }

  /** With `attached` attachments so far: an active provider still has an abnormality to spend. */
  predicate Allowed(tolerance: int, s: State, attached: nat, key: Key, counter: Counter) {
    && Count(s.counters, key, counter) <= tolerance - 1 + attached
    && (Active(s, key) ==> attached >= 1 && Count(s.counters, key, counter) <= tolerance - 2 + attached)
  }

  /** A step that attaches nobody, offers to nobody new and leaves the counter alone. */
  ghost predicate Calm(s: State, t: State, key: Key, counter: Counter) {
    && (Active(t, key) ==> Active(s, key))
    && Count(t.counters, key, counter) == Count(s.counters, key, counter)
  }

  /** Served agents only disappear, and no offer starts. */
  predicate Calmer(s: State, t: State) {
    t.links.Keys <= s.links.Keys && (t.sweep.Offering? ==> t.sweep == s.sweep)
  }

  lemma CalmFrom(s: State, t: State, key: Key, counter: Counter)
    requires Calmer(s, t) && Count(t.counters, key, counter) == Count(s.counters, key, counter)
    ensures Calm(s, t, key, counter)
  {
    assert ServedBy(t, key) <= ServedBy(s, key);
  }

  lemma CalmReads(s: State, u: State, t: State, key: Key, counter: Counter)
    requires Calm(s, t, key, counter) && u.links == s.links && u.sweep == s.sweep && u.counters == s.counters
    ensures Calm(u, t, key, counter)
  {
    hide Count;
    assert ServedBy(u, key) == ServedBy(s, key);
  }

  lemma NoteCalmer(c: Config, s: State, k: Key, e: Counter, now: Time, key: Key, counter: Counter)
    ensures var t := NoteAbnormal(c, s, k, e, now); Calmer(s, t)
    ensures Count(NoteAbnormal(c, s, k, e, now).counters, key, counter)
         == Count(s.counters, key, counter) + if k == key && counter == e then 1 else 0
  {
    NoteCounts(s.counters, k, e, key, counter);
  }

  lemma PushCalm(c: Config, s: State, id: RunId, cmd: Command, now: Time, key: Key, counter: Counter)
    requires WellFormed(s) && RaisedByOffers(counter)
    ensures Calm(s, PushTo(c, s, id, cmd, now), key, counter)
  {
    hide NoteAbnormal, Count;
    if id in s.tracked && cmd.Fail? && Named(s, id).claimedBy.Some? {
      NoteCalmer(c, s, Named(s, id).claimedBy.value, Abandoned, now, key, counter);
    }
    CalmFrom(s, PushTo(c, s, id, cmd, now), key, counter);
  }

  lemma TakeCalm(c: Config, s: State, h: nat, task: nat, now: Time, key: Key, counter: Counter)
    requires WellFormed(s) && RaisedByOffers(counter) && CanTake(s, h, task)
    ensures Calm(s, TakeCommand(c, s, h, task, now), key, counter)
  {
    hide PushTo, Count, Calm;
    if Malformed(s.made[h].inQueue[0]) {
      PushCalm(c, Drained(s, h), s.made[h].id, Fail(MALFORMED_REASON), now, key, counter);
      CalmReads(Drained(s, h), s, TakeCommand(c, s, h, task, now), key, counter);
    } else {
      CalmFrom(s, StartHandling(s, h, task), key, counter);
    }
  }

  lemma EndCalm(s: State, r: RunRecord, h: nat, key: Key, counter: Counter)
    requires WellFormed(s) && h < |s.made| && r.id == s.made[h].id
    ensures Calm(s, End(WithRun(s, h, r), h), key, counter)
  {
    hide End, Count;
    EndEffect(WithRun(s, h, r), h);
    CalmFrom(s, End(WithRun(s, h, r), h), key, counter);
  }

  lemma CompleteCalm(s: State, h: nat, task: nat, key: Key, counter: Counter)
    requires WellFormed(s) && CanComplete(s, h, task)
    ensures Calm(s, CompleteCommand(s, h, task), key, counter)
  {
    hide End, Count;
    var r := s.made[h];
    if Closing(r, r.pipelines[task].cmd) {
      EndCalm(s, r.(pipelines := RemoveAt(r.pipelines, task)), h, key, counter);
    } else {
      CalmFrom(s, CompleteCommand(s, h, task), key, counter);
    }
  }

  lemma FinishShotCalm(s: State, h: nat, task: nat, key: Key, counter: Counter)
    requires WellFormed(s) && CanFinish(s, h, task)
    ensures Calm(s, FinishShot(s, h, task), key, counter)
  {
    hide End, Count;
    EndCalm(s, s.made[h].(finishers := RemoveAt(s.made[h].finishers, task)), h, key, counter);
  }

  lemma LateAckCalm(c: Config, s: State, id: RunId, claimant: Key, now: Time, key: Key, counter: Counter)
    requires WellFormed(s) && RaisedByOffers(counter)
    ensures Calm(s, AcceptLateAck(c, s, id, claimant, now), key, counter)
  {
    hide NoteAbnormal, TakeOver, Unqueue, Count;
    if LateAckAllowed(s, id, claimant) {
      var u := TakeOver(s, s.tracked[id], claimant);
      TakeOverFrame(s, s.tracked[id], claimant);
      UnqueueFrame(u, Named(s, id).agent, id);
      NoteCalmer(c, Unqueue(u, Named(s, id).agent, id), claimant, AnsweredLate, now, key, counter);
    }
    CalmFrom(s, AcceptLateAck(c, s, id, claimant, now), key, counter);
  }

  lemma WakeCalm(c: Config, s: State, order: seq<AgentRef>, now: Time, key: Key, counter: Counter)
    requires WellFormed(s)
    ensures Calm(s, WakeUp(c, s, order, now), key, counter)
  {
    hide ExpireAgents, Count;
    ExpireAgentsIsExpiry(s, order, now - c.unservedTimeout);
    CalmFrom(s, WakeUp(c, s, order, now), key, counter);
  }

  lemma ScanCalm(s: State, key: Key, counter: Counter)
    requires Sound(s) && s.sweep.Scanning?
    ensures Calm(s, ScanNext(s), key, counter)
  {
    hide ScannedQueues, Offerable, Count;
    var t := ScanNext(s);
    assert ServedBy(t, key) == ServedBy(s, key);
    if t.sweep.Offering? && t.sweep.provider.key == key {
      assert s.sweep.left[0] in ServedBy(s, key);
    }
  }

  lemma CallersCalm(c: Config, s: State, step: Step, now: Time, key: Key, counter: Counter)
    requires WellFormed(s) && Enabled(s, step)
    requires step.Start? || step.Enqueue? || step.Detach? || step.Cancel?
    ensures Calm(s, Next(c, s, step, now), key, counter)
  {
    hide WakeUp, ScanNext, AnswerOffer, PushTo, AcceptLateAck, TakeCommand, CompleteCommand, FinishShot, Count;
    CalmFrom(s, Next(c, s, step, now), key, counter);
  }

  /** An abnormal answer spends one; reaching the tolerance leaves the provider without any agent. */
  lemma NoteSpends(c: Config, s: State, t: State, now: Time, attached: nat, key: Key, e: Counter, counter: Counter)
    requires c.tolerance.Some? && c.tolerance.value >= 1 && RaisedByOffers(counter)
    requires s.sweep.Offering? && Allowed(c.tolerance.value, s, attached, key, counter)
    requires var noted := NoteAbnormal(c, s, s.sweep.provider.key, e, now);
      t.links == noted.links && t.counters == noted.counters && t.sweep.Scanning?
    ensures Allowed(c.tolerance.value, t, attached, key, counter)
  {
    var k := s.sweep.provider.key;
    NoteCounts(s.counters, k, e, key, counter);
    NoteCalmer(c, s, k, e, now, key, counter);
    assert ServedBy(t, key) <= ServedBy(s, key);
    if k == key && e == counter && Count(t.counters, key, counter) >= c.tolerance.value {
      assert ServedBy(t, key) == {};
    }
  }

  lemma AnswerAllowed(c: Config, s: State, answer: Answer, now: Time, attached: nat, key: Key, counter: Counter)
    requires Sound(s) && s.sweep.Offering? && c.tolerance.Some? && c.tolerance.value >= 1 && RaisedByOffers(counter)
    requires Allowed(c.tolerance.value, s, attached, key, counter)
    ensures Allowed(c.tolerance.value, AnswerOffer(c, s, answer, now), attached, key, counter)
  {
    hide NoteAbnormal, TakeOver, Unqueue, Count, Allowed;
    var h, k := s.sweep.run, s.sweep.provider.key;
    var t := AnswerOffer(c, s, answer, now);
    match answer
    case NoAnswer => NoteSpends(c, s, t, now, attached, key, Unanswered, counter);
    case Declined =>
      if BelievedFree(s, k) {
        NoteSpends(c, s, t, now, attached, key, Misdeclared, counter);
      } else {
        CalmAllowed(c.tolerance.value, s, t, attached, key, counter);
      }
    case Refused(reason) =>
      UnqueueFrame(SpawnFinisher(s, h, Fail(reason)), s.sweep.agent, s.made[h].id);
      CalmAllowed(c.tolerance.value, s, t, attached, key, counter);
    case Accepted =>
      TakeOverFrame(s, h, k);
      UnqueueFrame(TakeOver(s, h, k), s.sweep.agent, s.made[h].id);
      CalmAllowed(c.tolerance.value, s, t, attached, key, counter);
  }

  lemma CalmAllowed(tolerance: int, s: State, t: State, attached: nat, key: Key, counter: Counter)
    requires Allowed(tolerance, s, attached, key, counter) && Calmer(s, t) && t.counters == s.counters
    ensures Allowed(tolerance, t, attached, key, counter)
  {
    hide Count;
    CalmFrom(s, t, key, counter);
  }

  lemma AttachAllowed(tolerance: int, s: State, connection: Connection, names: set<string>, attached: nat, key: Key,
                      counter: Counter)
    requires Allowed(tolerance, s, attached, key, counter)
    ensures Allowed(tolerance, Register(s, connection, names),
                    if connection.key == key then attached + 1 else attached, key, counter)
  {
    hide Count;
    var t := Register(s, connection, names);
    if connection.key != key {
      assert ServedBy(t, key) == ServedBy(s, key);
    }
  }

  predicate AttachesKey(step: Step, key: Key) {
    step.Attach? && step.connection.key == key
  }

  lemma AllowedNext(c: Config, s: State, step: Step, now: Time, attached: nat, key: Key, counter: Counter)
    requires Sound(s) && Enabled(s, step) && c.tolerance.Some? && c.tolerance.value >= 1 && RaisedByOffers(counter)
    requires Allowed(c.tolerance.value, s, attached, key, counter)
    ensures Allowed(c.tolerance.value, Next(c, s, step, now),
                    if AttachesKey(step, key) then attached + 1 else attached, key, counter)
  {
    hide WakeUp, ScanNext, AnswerOffer, PushTo, AcceptLateAck, TakeCommand, CompleteCommand, FinishShot, Register,
      SoundRun, SoundLinks, Count;
    match step
    case Answered(answer) => AnswerAllowed(c, s, answer, now, attached, key, counter);
    case Attach(connection, names) => AttachAllowed(c.tolerance.value, s, connection, names, attached, key, counter);
    case Wake(order) => WakeCalm(c, s, order, now, key, counter);
    case Scan => ScanCalm(s, key, counter);
    case Push(id, cmd) => PushCalm(c, s, id, cmd, now, key, counter);
    case LateAck(id, claimant) => LateAckCalm(c, s, id, claimant, now, key, counter);
    case Take(h, task) => TakeCalm(c, s, h, task, now, key, counter);
    case Complete(h, task) => CompleteCalm(s, h, task, key, counter);
    case FinishOneShot(h, task) => FinishShotCalm(s, h, task, key, counter);
    case _ => CallersCalm(c, s, step, now, key, counter);
  }

  function Attachments(moments: seq<Moment>, n: nat, key: Key): nat
    requires n <= |moments|
  {
    if n == 0 then 0 else Attachments(moments, n - 1, key) + if AttachesKey(moments[n - 1].step, key) then 1 else 0
  }

  lemma {:induction false} AlwaysAllowed(c: Config, states: seq<State>, moments: seq<Moment>, n: nat, key: Key,
                                         counter: Counter)
    requires Execution(c, states, moments) && n <= |moments|
    requires c.tolerance.Some? && c.tolerance.value >= 1 && RaisedByOffers(counter)
    ensures Allowed(c.tolerance.value, states[n], Attachments(moments, n, key), key, counter)
  {
    hide Next, Enabled;
    if n > 0 {
      AlwaysAllowed(c, states, moments, n - 1, key, counter);
      AlwaysSound(c, states, moments, n - 1);
      hide Allowed, Sound;
      assert Happens(c, states[n - 1], moments[n - 1], states[n - 1 + 1]);
      AllowedNext(c, states[n - 1], moments[n - 1].step, moments[n - 1].at, Attachments(moments, n - 1, key), key,
                  counter);
    }
  }

  /** With a tolerance of at least one, each attachment buys a provider at most one abnormality of a kind beyond
      the first `tolerance - 1`, even when it is withdrawn or detached while an offer to it is outstanding. */
  lemma AbnormalityBound(c: Config, states: seq<State>, moments: seq<Moment>, n: nat, key: Key)
    requires Execution(c, states, moments) && n <= |moments| && c.tolerance.Some? && c.tolerance.value >= 1
    ensures Count(states[n].counters, key, Unanswered) <= c.tolerance.value - 1 + Attachments(moments, n, key)
    ensures Count(states[n].counters, key, Misdeclared) <= c.tolerance.value - 1 + Attachments(moments, n, key)
  {
    AlwaysAllowed(c, states, moments, n, key, Unanswered);
    AlwaysAllowed(c, states, moments, n, key, Misdeclared);
  }

  // ------------------------------------------------------------------ what the counters count

  /** The one event a step records against `key`, if it records one. */
  function Recorded(s: State, step: Step, key: Key, counter: Counter): nat
    requires WellFormed(s) && Enabled(s, step)
  {
    match step
    case Answered(NoAnswer) => if counter.Unanswered? && s.sweep.provider.key == key then 1 else 0
    case Answered(Declined) =>
      if counter.Misdeclared? && s.sweep.provider.key == key && SeemedFree(s, key) then 1 else 0
    case LateAck(id, claimant) =>
      if counter.AnsweredLate? && claimant == key && UnheldFor(s, id, key) then 1 else 0
    case Push(id, cmd) => if counter.Abandoned? && cmd.Fail? && HeldBy(s, id, key) then 1 else 0
    case Take(h, _) =>
      if counter.Abandoned? && Malformed(s.made[h].inQueue[0]) && HeldBy(s, s.made[h].id, key) then 1 else 0
    case _ => 0
  }

  /** The provider declared no limit, or had less in flight than it declared. */
  predicate SeemedFree(s: State, key: Key) {
    key in s.capacity && match s.capacity[key].declared
                         case None => true
                         case Some(limit) => s.capacity[key].inFlight < limit
  }

  /** Nobody holds the run, and its agent is connected under the key. */
  predicate UnheldFor(s: State, id: RunId, key: Key)
    requires WellFormed(s)
  {
    && id in s.tracked && Named(s, id).claimedBy == None
    && Named(s, id).agent in s.links && s.links[Named(s, id).agent].key == key
  }

  predicate HeldBy(s: State, id: RunId, key: Key)
    requires WellFormed(s)
  {
    id in s.tracked && Named(s, id).claimedBy == Some(key)
  }

  lemma PushRecords(c: Config, s: State, id: RunId, cmd: Command, now: Time, key: Key, counter: Counter)
    requires WellFormed(s)
    ensures Count(PushTo(c, s, id, cmd, now).counters, key, counter)
         == Count(s.counters, key, counter) + if counter.Abandoned? && cmd.Fail? && HeldBy(s, id, key) then 1 else 0
  {
    hide NoteAbnormal, Count;
    if id in s.tracked && Named(s, id).claimedBy.Some? {
      NoteCounts(s.counters, Named(s, id).claimedBy.value, Abandoned, key, counter);
    }
  }

  lemma TakeRecords(c: Config, s: State, h: nat, task: nat, now: Time, key: Key, counter: Counter)
    requires WellFormed(s) && CanTake(s, h, task)
    ensures Count(TakeCommand(c, s, h, task, now).counters, key, counter)
         == Count(s.counters, key, counter) + Recorded(s, Take(h, task), key, counter)
  {
    hide PushTo, Count;
    PushRecords(c, Drained(s, h), s.made[h].id, Fail(MALFORMED_REASON), now, key, counter);
  }

  lemma AnswerRecords(c: Config, s: State, answer: Answer, now: Time, key: Key, counter: Counter)
    requires WellFormed(s) && s.sweep.Offering?
    ensures Count(AnswerOffer(c, s, answer, now).counters, key, counter)
         == Count(s.counters, key, counter) + Recorded(s, Answered(answer), key, counter)
  {
    hide NoteAbnormal, Count, TakeOver, Unqueue;
    NoteCounts(s.counters, s.sweep.provider.key, Unanswered, key, counter);
    NoteCounts(s.counters, s.sweep.provider.key, Misdeclared, key, counter);
    match answer
    case Accepted =>
      TakeOverFrame(s, s.sweep.run, s.sweep.provider.key);
      UnqueueFrame(TakeOver(s, s.sweep.run, s.sweep.provider.key), s.sweep.agent, s.made[s.sweep.run].id);
    case Refused(reason) =>
      UnqueueFrame(SpawnFinisher(s, s.sweep.run, Fail(reason)), s.sweep.agent, s.made[s.sweep.run].id);
    case _ =>
  }

  lemma LateAckRecords(c: Config, s: State, id: RunId, claimant: Key, now: Time, key: Key, counter: Counter)
    requires WellFormed(s)
    ensures Count(AcceptLateAck(c, s, id, claimant, now).counters, key, counter)
         == Count(s.counters, key, counter) + Recorded(s, LateAck(id, claimant), key, counter)
  {
    hide NoteAbnormal, Count, TakeOver, Unqueue;
    if LateAckAllowed(s, id, claimant) {
      TakeOverFrame(s, s.tracked[id], claimant);
      UnqueueFrame(TakeOver(s, s.tracked[id], claimant), Named(s, id).agent, id);
      NoteCounts(s.counters, claimant, AnsweredLate, key, counter);
    }
  }

  lemma OthersRecordNothing(c: Config, s: State, step: Step, now: Time)
    requires WellFormed(s) && Enabled(s, step)
    requires !step.Answered? && !step.Push? && !step.Take? && !step.LateAck?
    ensures Next(c, s, step, now).counters == s.counters
  {
    hide End, ExpireAgents;
    match step
    case Wake(order) => ExpireAgentsIsExpiry(s, order, now - c.unservedTimeout);
    case Complete(h, task) =>
      EndEffect(WithRun(s, h, s.made[h].(pipelines := RemoveAt(s.made[h].pipelines, task))), h);
    case FinishOneShot(h, task) =>
      EndEffect(WithRun(s, h, s.made[h].(finishers := RemoveAt(s.made[h].finishers, task))), h);
    case _ =>
  }

  lemma RecordsStep(c: Config, s: State, step: Step, now: Time, key: Key, counter: Counter)
    requires WellFormed(s) && Enabled(s, step)
    ensures Count(Next(c, s, step, now).counters, key, counter)
         == Count(s.counters, key, counter) + Recorded(s, step, key, counter)
  {
    hide Count, AnswerOffer, PushTo, TakeCommand, AcceptLateAck;
    match step
    case Answered(answer) => AnswerRecords(c, s, answer, now, key, counter);
    case Push(id, cmd) => PushRecords(c, s, id, cmd, now, key, counter);
    case Take(h, task) => TakeRecords(c, s, h, task, now, key, counter);
    case LateAck(id, claimant) => LateAckRecords(c, s, id, claimant, now, key, counter);
    case _ => OthersRecordNothing(c, s, step, now);
  }

  function RecordedSoFar(c: Config, states: seq<State>, moments: seq<Moment>, n: nat, key: Key, counter: Counter): nat
    requires Execution(c, states, moments) && n <= |moments|
  {
    if n == 0 then 0
    else
      assert Happens(c, states[n - 1], moments[n - 1], states[n - 1 + 1]);
      RecordedSoFar(c, states, moments, n - 1, key, counter)
      + Recorded(states[n - 1], moments[n - 1].step, key, counter)
  }

  /** Each counter is exactly the number of its events: unanswered offers, declines by a provider believed to have
      room, late acks that took a run, and failures pushed for a run the provider held. */
  lemma {:induction false} CountersCountTheirEvents(c: Config, states: seq<State>, moments: seq<Moment>, n: nat,
                                                    key: Key, counter: Counter)
    requires Execution(c, states, moments) && n <= |moments|
    ensures Count(states[n].counters, key, counter) == RecordedSoFar(c, states, moments, n, key, counter)
  {
    hide Next, Recorded, Enabled;
    if n > 0 {
      CountersCountTheirEvents(c, states, moments, n - 1, key, counter);
      assert Happens(c, states[n - 1], moments[n - 1], states[n - 1 + 1]);
      RecordsStep(c, states[n - 1], moments[n - 1].step, moments[n - 1].at, key, counter);
    }
  }
}

/** How far a provider can be loaded beyond the limit it declared. */
module BrokerCapacity {
  import opened Basics
  import opened Events
  import opened BrokerSpec
  import opened BrokerSound

  /** A slot an outstanding offer may yet take. */
  function Asked(s: State, key: Key): nat {
    if s.sweep.Offering? && s.sweep.provider.key == key then 1 else 0
  }

  /** The declared limit is exceeded by late acks only, even if the outstanding offer is accepted. */
  predicate Within(s: State, key: Key) {
    key in s.capacity && s.capacity[key].declared.Some? ==>
      InFlight(s, key) + Asked(s, key) <= Max(s.capacity[key].declared.value, 0) + Count(s.counters, key, AnsweredLate)
  }

  /** A step that frees or keeps slots, offers nothing and forgets no late ack keeps within the limit. */
  lemma StaysWithin(s: State, t: State, key: Key)
    requires Within(s, key)
    requires key in t.capacity <==> key in s.capacity
    requires key in s.capacity ==>
      t.capacity[key].declared == s.capacity[key].declared && t.capacity[key].inFlight <= s.capacity[key].inFlight
    requires Asked(t, key) <= Asked(s, key)
    requires Count(t.counters, key, AnsweredLate) >= Count(s.counters, key, AnsweredLate)
    ensures Within(t, key)
  {
  }

  lemma NoteStaysWithin(c: Config, s: State, k: Key, counter: Counter, now: Time, key: Key)
    requires Within(s, key)
    ensures Within(NoteAbnormal(c, s, k, counter, now), key)
  {
    hide NoteAbnormal, Count, Note;
    NoteCounts(s.counters, k, counter, key, AnsweredLate);
    StaysWithin(s, NoteAbnormal(c, s, k, counter, now), key);
  }

  lemma PushStaysWithin(c: Config, s: State, id: RunId, cmd: Command, now: Time, key: Key)
    requires WellFormed(s) && Within(s, key)
    ensures Within(PushTo(c, s, id, cmd, now), key)
  {
    hide NoteAbnormal, Count, Note;
    if id in s.tracked && cmd.Fail? && Named(s, id).claimedBy.Some? {
      NoteStaysWithin(c, s, Named(s, id).claimedBy.value, Abandoned, now, key);
    }
  }

  lemma TakeStaysWithin(c: Config, s: State, h: nat, task: nat, now: Time, key: Key)
    requires WellFormed(s) && Within(s, key) && CanTake(s, h, task)
    ensures Within(TakeCommand(c, s, h, task, now), key)
  {
    hide PushTo, Count, Drained, Within, StartHandling;
    var malformed := Malformed(s.made[h].inQueue[0]);
    var t := if malformed then Drained(s, h) else StartHandling(s, h, task);
    TakingStaysWithin(s, h, task, key);
    if malformed {
      PushStaysWithin(c, t, s.made[h].id, Fail(MALFORMED_REASON), now, key);
    }
  }

  lemma TakingStaysWithin(s: State, h: nat, task: nat, key: Key)
    requires WellFormed(s) && Within(s, key) && CanTake(s, h, task)
    ensures Within(Drained(s, h), key) && Within(StartHandling(s, h, task), key)
  {
    hide Count;
  }

  lemma EndStaysWithin(s: State, r: RunRecord, h: nat, key: Key)
    requires WellFormed(s) && Within(s, key) && h < |s.made| && r.id == s.made[h].id
    ensures Within(End(WithRun(s, h, r), h), key)
  {
    hide Count, Note;
    StaysWithin(s, End(WithRun(s, h, r), h), key);
  }

  lemma CompleteStaysWithin(s: State, h: nat, task: nat, key: Key)
    requires WellFormed(s) && Within(s, key) && CanComplete(s, h, task)
    ensures Within(CompleteCommand(s, h, task), key)
  {
    hide End, Count, Note;
    var r := s.made[h];
    if Closing(r, r.pipelines[task].cmd) {
      EndStaysWithin(s, r.(pipelines := RemoveAt(r.pipelines, task)), h, key);
    }
  }

  lemma FinishShotStaysWithin(s: State, h: nat, task: nat, key: Key)
    requires WellFormed(s) && Within(s, key) && CanFinish(s, h, task)
    ensures Within(FinishShot(s, h, task), key)
  {
    hide End, Count, Note;
    EndStaysWithin(s, s.made[h].(finishers := RemoveAt(s.made[h].finishers, task)), h, key);
  }

  lemma LateAckStaysWithin(c: Config, s: State, id: RunId, claimant: Key, now: Time, key: Key)
    requires WellFormed(s) && Within(s, key)
    ensures Within(AcceptLateAck(c, s, id, claimant, now), key)
  {
    hide NoteAbnormal, TakeOver, Unqueue, Count, Note;
    if LateAckAllowed(s, id, claimant) {
      TakeOverFrame(s, s.tracked[id], claimant);
      UnqueueFrame(TakeOver(s, s.tracked[id], claimant), Named(s, id).agent, id);
      NoteCounts(s.counters, claimant, AnsweredLate, key, AnsweredLate);
    }
  }

  lemma AnswerStaysWithin(c: Config, s: State, answer: Answer, now: Time, key: Key)
    requires WellFormed(s) && SoundLinks(s) && Within(s, key) && s.sweep.Offering?
    ensures Within(AnswerOffer(c, s, answer, now), key)
  {
    hide NoteAbnormal, RemoveFirst, Count, OfferUnanswered, OfferDeclined;
    match answer
    case NoAnswer => OfferUnansweredWithin(c, s, now, key);
    case Refused(_) =>
    case Accepted =>
    case Declined => OfferDeclinedWithin(c, s, now, key);
  }

  lemma OfferUnansweredWithin(c: Config, s: State, now: Time, key: Key)
    requires WellFormed(s) && Within(s, key) && s.sweep.Offering?
    ensures Within(OfferUnanswered(c, s, now), key)
  {
    hide NoteAbnormal, Count, Note;
    NoteCounts(s.counters, s.sweep.provider.key, Unanswered, key, AnsweredLate);
    StaysWithin(s, OfferUnanswered(c, s, now), key);
  }

  lemma OfferDeclinedWithin(c: Config, s: State, now: Time, key: Key)
    requires WellFormed(s) && Within(s, key) && s.sweep.Offering?
    ensures Within(OfferDeclined(c, s, now), key)
  {
    hide NoteAbnormal, Count, Note;
    NoteCounts(s.counters, s.sweep.provider.key, Misdeclared, key, AnsweredLate);
  }

  lemma WakeStaysWithin(c: Config, s: State, order: seq<AgentRef>, now: Time, key: Key)
    requires WellFormed(s) && Within(s, key)
    ensures Within(WakeUp(c, s, order, now), key)
  {
    hide Count, ExpireAgents, Expiry;
    var t := ExpireAgents(s, order, now - c.unservedTimeout);
    ExpireAgentsIsExpiry(s, order, now - c.unservedTimeout);
    assert t == s.(made := t.made, pending := t.pending) by { ExpiryFrame(s, t); }
  }

  lemma ExpiryFrame(s: State, t: State)
    requires Expiry(s, t)
    ensures t == s.(made := t.made, pending := t.pending)
  {
  }

  lemma ScanStaysWithin(s: State, key: Key)
    requires WellFormed(s) && Within(s, key) && s.sweep.Scanning?
    ensures Within(ScanNext(s), key)
  {
    hide ScannedQueues, Count, Note;
  }

  lemma OtherStaysWithin(c: Config, s: State, step: Step, now: Time, key: Key)
    requires WellFormed(s) && SoundLinks(s) && Within(s, key) && Enabled(s, step)
    requires step.Start? || step.Attach? || step.Detach? || step.Cancel? || step.Enqueue?
    ensures Within(Next(c, s, step, now), key)
  {
    hide Count, Note;
  }

  lemma WithinNext(c: Config, s: State, step: Step, now: Time, key: Key)
    requires Sound(s) && Within(s, key) && Enabled(s, step)
    ensures Within(Next(c, s, step, now), key)
  {
    hide Within, WakeUp, ScanNext, AnswerOffer, PushTo, AcceptLateAck, TakeCommand, CompleteCommand, FinishShot;
    match step
    case Wake(order) => WakeStaysWithin(c, s, order, now, key);
    case Scan => ScanStaysWithin(s, key);
    case Answered(answer) => AnswerStaysWithin(c, s, answer, now, key);
    case Push(id, cmd) => PushStaysWithin(c, s, id, cmd, now, key);
    case LateAck(id, claimant) => LateAckStaysWithin(c, s, id, claimant, now, key);
    case Take(h, task) => TakeStaysWithin(c, s, h, task, now, key);
    case Complete(h, task) => CompleteStaysWithin(s, h, task, key);
    case FinishOneShot(h, task) => FinishShotStaysWithin(s, h, task, key);
    case _ => OtherStaysWithin(c, s, step, now, key);
  }

  /** In every reachable state, with acks and forgets landing during an offer, `in_flight` is at most the limit in the
      bucket plus the late acks counted against the provider. */
  lemma {:induction false} AlwaysWithin(c: Config, states: seq<State>, moments: seq<Moment>, n: nat, key: Key)
    requires Execution(c, states, moments) && n <= |moments|
    ensures Within(states[n], key)
  {
    if n > 0 {
      AlwaysWithin(c, states, moments, n - 1, key);
      AlwaysSound(c, states, moments, n - 1);
      assert Happens(c, states[n - 1], moments[n - 1], states[n - 1 + 1]);
      WithinNext(c, states[n - 1], moments[n - 1].step, moments[n - 1].at, key);
    }
  }
}

/**
 What a provider declared when it first connected is what it is held to for good: the buckets, the capacity bound and
 the wake-ups in terms of the figures that came with the connections.
 */
module BrokerFigures {
  import opened Basics
  import opened Events
  import opened BrokerSpec
  import opened BrokerSound
  import opened BrokerCapacity
  import opened BrokerWakeup

  /** The figure declared by the first connection under `key` that came with an agent; None before there is one. */
  function FirstFigure(moments: seq<Moment>, n: nat, key: Key): Option<Option<int>>
    requires n <= |moments|
  {
    if n == 0 then None
    else
      var earlier, last := FirstFigure(moments, n - 1, key), moments[n - 1].step;
      if earlier.Some? then earlier
      else if last.Attach? && last.connection.key == key && last.names != {} then Some(last.connection.declared)
      else None
  }

  predicate SameFigures(s: State, t: State) {
    && t.capacity.Keys == s.capacity.Keys
    && (forall key :: key in s.capacity ==> t.capacity[key].declared == s.capacity[key].declared)
  }

  lemma EndKeepsFigures(s: State, h: nat, r: RunRecord)
    requires WellFormed(s) && h < |s.made| && r.id == s.made[h].id
    ensures SameFigures(s, End(WithRun(s, h, r), h))
  {
  }

  lemma AnswerKeepsFigures(c: Config, s: State, answer: Answer, now: Time)
    requires WellFormed(s) && s.sweep.Offering?
    ensures SameFigures(s, AnswerOffer(c, s, answer, now))
  {
    hide NoteAbnormal, Unqueue;
    var agent, h := s.sweep.agent, s.sweep.run;
    UnqueueFrame(TakeOver(s, h, s.sweep.provider.key), agent, s.made[h].id);
    if answer.Refused? {
      UnqueueFrame(SpawnFinisher(s, h, Fail(answer.reason)), agent, s.made[h].id);
    }
  }

  lemma LateAckKeepsFigures(c: Config, s: State, id: RunId, claimant: Key, now: Time)
    requires WellFormed(s)
    ensures SameFigures(s, AcceptLateAck(c, s, id, claimant, now))
  {
    hide NoteAbnormal, Unqueue;
    if LateAckAllowed(s, id, claimant) {
      UnqueueFrame(TakeOver(s, s.tracked[id], claimant), Named(s, id).agent, id);
    }
  }

  lemma PushKeepsFigures(c: Config, s: State, id: RunId, cmd: Command, now: Time)
    requires WellFormed(s)
    ensures PushTo(c, s, id, cmd, now).capacity == s.capacity
  {
    hide NoteAbnormal;
  }

  lemma TakeKeepsFigures(c: Config, s: State, h: nat, task: nat, now: Time)
    requires WellFormed(s) && CanTake(s, h, task)
    ensures TakeCommand(c, s, h, task, now).capacity == s.capacity
  {
    hide PushTo;
    PushKeepsFigures(c, Drained(s, h), s.made[h].id, Fail(MALFORMED_REASON), now);
  }

  lemma CompleteKeepsFigures(s: State, h: nat, task: nat)
    requires WellFormed(s) && CanComplete(s, h, task)
    ensures SameFigures(s, CompleteCommand(s, h, task))
  {
    hide End;
    EndKeepsFigures(s, h, s.made[h].(pipelines := RemoveAt(s.made[h].pipelines, task)));
  }

  lemma ShotKeepsFigures(s: State, h: nat, task: nat)
    requires WellFormed(s) && CanFinish(s, h, task)
    ensures SameFigures(s, FinishShot(s, h, task))
  {
    hide End;
    EndKeepsFigures(s, h, s.made[h].(finishers := RemoveAt(s.made[h].finishers, task)));
  }

  lemma WakeKeepsFigures(c: Config, s: State, order: seq<AgentRef>, now: Time)
    requires WellFormed(s)
    ensures WakeUp(c, s, order, now).capacity == s.capacity
  {
    hide ExpireAgents;
    ExpireAgentsIsExpiry(s, order, now - c.unservedTimeout);
  }

  lemma FiguresStay(c: Config, s: State, step: Step, now: Time)
    requires WellFormed(s) && Enabled(s, step) && !step.Attach?
    ensures SameFigures(s, Next(c, s, step, now))
  {
    hide WakeUp, ScanNext, AnswerOffer, PushTo, AcceptLateAck, TakeCommand, CompleteCommand, FinishShot;
    match step
    case Wake(order) => WakeKeepsFigures(c, s, order, now);
    case Scan => ScanKeepsFigures(s);
    case Answered(answer) => AnswerKeepsFigures(c, s, answer, now);
    case Push(id, cmd) => PushKeepsFigures(c, s, id, cmd, now);
    case LateAck(id, claimant) => LateAckKeepsFigures(c, s, id, claimant, now);
    case Take(h, task) => TakeKeepsFigures(c, s, h, task, now);
    case Complete(h, task) => CompleteKeepsFigures(s, h, task);
    case FinishOneShot(h, task) => ShotKeepsFigures(s, h, task);
    case _ =>
  }

  lemma ScanKeepsFigures(s: State)
    requires WellFormed(s) && s.sweep.Scanning?
    ensures ScanNext(s).capacity == s.capacity
  {
    hide ScannedQueues, ScannedSweep;
  }

  /** An attach gives a key its bucket the first time it comes with an agent, holding what the connection declares. */
  lemma AttachFigures(s: State, connection: Connection, names: set<string>, key: Key)
    requires WellFormed(s)
    ensures var t := Register(s, connection, names);
      && (key in t.capacity <==> key in s.capacity || (connection.key == key && names != {}))
      && (key in s.capacity ==> t.capacity[key] == s.capacity[key])
      && (key in t.capacity && key !in s.capacity ==> t.capacity[key] == Capacity(connection.declared, 0))
  {
    if names != {} {
      var n :| n in names;
      assert AgentRef(connection.key, n) in RefsOf(connection.key, names);
    } else {
      assert RefsOf(connection.key, names) == {};
    }
  }

  /** Over every execution a key has a bucket exactly once a connection under it has come with an agent, and the bucket
      holds what the first such connection declared. */
  lemma {:induction false} BucketHoldsFirstFigure(c: Config, states: seq<State>, moments: seq<Moment>, n: nat, key: Key)
    requires Execution(c, states, moments) && n <= |moments|
    ensures key in states[n].capacity <==> FirstFigure(moments, n, key).Some?
    ensures key in states[n].capacity ==> states[n].capacity[key].declared == FirstFigure(moments, n, key).value
  {
    hide Next, Enabled, Register;
    if n > 0 {
      BucketHoldsFirstFigure(c, states, moments, n - 1, key);
      var s, m := states[n - 1], moments[n - 1];
      assert Happens(c, s, m, states[n - 1 + 1]);
      if m.step.Attach? {
        AttachFigures(s, m.step.connection, m.step.names, key);
        NextAttaches(c, s, m.step.connection, m.step.names, m.at);
      } else {
        FiguresStay(c, s, m.step, m.at);
      }
    }
  }

  lemma NextAttaches(c: Config, s: State, connection: Connection, names: set<string>, now: Time)
    requires WellFormed(s)
    ensures Enabled(s, Attach(connection, names))
    ensures Next(c, s, Attach(connection, names), now) == Register(s, connection, names)
  {
    hide Register;
  }

  /** In every reachable state, with acks and forgets landing during an offer, a provider that first connected declaring
      `limit` has at most that many in flight, the outstanding offer included, plus the late acks counted against it. */
  lemma CapacityBound(c: Config, states: seq<State>, moments: seq<Moment>, n: nat, key: Key, limit: int)
    requires Execution(c, states, moments) && n <= |moments|
    requires FirstFigure(moments, n, key) == Some(Some(limit))
    ensures InFlight(states[n], key) + Asked(states[n], key)
         <= Max(limit, 0) + Count(states[n].counters, key, AnsweredLate)
  {
    AlwaysWithin(c, states, moments, n, key);
    BucketHoldsFirstFigure(c, states, moments, n, key);
    hide FirstFigure, Count;
  }

  /** Whenever the loop sleeps with its event clear, every agent with queued runs is unserved, or its provider has in
      flight what it first declared, or it declined or left unanswered an offer of this agent in the sweep just made. */
  lemma NoLostWakeup(c: Config, states: seq<State>, moments: seq<Moment>, n: nat, a: AgentRef)
    requires Execution(c, states, moments) && n <= |moments|
    requires states[n].sweep.Asleep? && !states[n].workToDo && Queue(states[n], a) != []
    ensures || a !in states[n].links
            || a in Unaccepted(c, states, moments, n)
            || exists limit :: && FirstFigure(moments, n, states[n].links[a].key) == Some(Some(limit))
                               && InFlight(states[n], states[n].links[a].key) >= limit
  {
    NothingToPlace(c, states, moments, n, a);
    if a in states[n].links && a !in Unaccepted(c, states, moments, n) {
      var key := states[n].links[a].key;
      BucketHoldsFirstFigure(c, states, moments, n, key);
      var limit := states[n].capacity[key].declared.value;
      hide FirstFigure;
    }
  }
}

/**
 The gates a provider's reports pass before they reach the broker (`core.py`): only the provider that holds
 a run, or takes it late, is heard.
 */
module Gates {
  import opened Basics
  import opened Events
  import opened BrokerSpec
  import opened Broker

  /** `report_event`: a late ack if nobody holds the run, then a relay for its holder. */
  function Reported(c: Config, s: State, id: RunId, event: Event, claimant: Key, now: Time): (t: State)
    requires WellFormed(s)
    ensures WellFormed(t)
  {
    var acked := AcceptLateAck(c, s, id, claimant, now);
    if Holds(acked, id, claimant) then PushTo(c, acked, id, RelayEvent(event), now) else acked
  }

  function Finished(c: Config, s: State, id: RunId, claimant: Key, now: Time): (t: State)
    requires WellFormed(s)
    ensures WellFormed(t)
  {
    if Holds(s, id, claimant) then PushTo(c, s, id, FinishStream, now) else s
  }

  predicate Holds(s: State, id: RunId, claimant: Key)
    requires WellFormed(s)
  {
    id in s.tracked && Named(s, id).claimedBy == Some(claimant)
  }

  /** The claimant holds the run, or nobody does and the run's agent is connected under the claimant's key. */
  predicate Heard(s: State, id: RunId, claimant: Key)
    requires WellFormed(s)
  {
    && id in s.tracked
    && var run := s.made[s.tracked[id]];
       match run.claimedBy
       case Some(holder) => holder == claimant
       case None => run.agent in s.links && s.links[run.agent].key == claimant
  }

  lemma HeardIsHeldOrAcked(s: State, id: RunId, claimant: Key)
    requires WellFormed(s)
    ensures Heard(s, id, claimant) <==> Holds(s, id, claimant) || LateAckAllowed(s, id, claimant)
  {
  }

  method ReportEvent(broker: RunBroker, id: RunId, event: Event, claimant: Key, now: Time) returns (relayed: bool)
    requires broker.Valid()
    modifies broker`pending, broker`capacity, broker`unservedSince, broker.live
    modifies if id in broker.runs then {broker.runs[id]} else {}
    ensures broker.Valid()
    ensures relayed == Heard(old(broker.Abstract()), id, claimant)
    ensures broker.Abstract() == Reported(broker.config, old(broker.Abstract()), id, event, claimant, now)
  {
    hide AcceptLateAck, PushTo, RecordsOf, Handles, InPlace, AllMade, Position;
    ghost var s := broker.Abstract();
    WhoHoldsAfterAck(broker.config, s, id, claimant, now);
    HeardIsHeldOrAcked(s, id, claimant);
    broker.KnownIds();
    if id !in broker.runs {
      NoAckForAnother(broker.config, s, id, claimant, now);
      return false;
    }
    broker.NamedRun(id);
    var run := broker.runs[id];
    if run.claimedBy.None? {
      var taken := broker.LateAcknowledge(id, claimant, now);
      if !taken {
        return false;
      }
    } else if run.claimedBy.value != claimant {
      NoAckForAnother(broker.config, s, id, claimant, now);
      return false;
    } else {
      NoAckForAnother(broker.config, s, id, claimant, now);
    }
    relayed := broker.PushCommand(id, RelayEvent(event), now);
  }

  lemma NoAckForAnother(c: Config, s: State, id: RunId, claimant: Key, now: Time)
    requires WellFormed(s) && !LateAckAllowed(s, id, claimant)
    ensures AcceptLateAck(c, s, id, claimant, now) == s
  {
  }

  /** After the ack the claimant holds the run exactly if it held it before or the ack was allowed. */
  lemma WhoHoldsAfterAck(c: Config, s: State, id: RunId, claimant: Key, now: Time)
    requires WellFormed(s)
    ensures Holds(AcceptLateAck(c, s, id, claimant, now), id, claimant)
       <==> Holds(s, id, claimant) || LateAckAllowed(s, id, claimant)
  {
    if LateAckAllowed(s, id, claimant) {
      AckTakesOnlyThisRun(c, s, id, claimant, now);
    } else {
      NoAckForAnother(c, s, id, claimant, now);
    }
    hide AcceptLateAck;
  }

  lemma AckTakesOnlyThisRun(c: Config, s: State, id: RunId, claimant: Key, now: Time)
    requires WellFormed(s) && LateAckAllowed(s, id, claimant)
    ensures var t, h := AcceptLateAck(c, s, id, claimant, now), s.tracked[id];
      && t.tracked == s.tracked && |t.made| == |s.made|
      && t.made == s.made[h := t.made[h]] && t.made[h].claimedBy == Some(claimant)
      && t.made[h].inQueue == s.made[h].inQueue + [Claim]
  {
    hide NoteAbnormal, Unqueue;
    TakeOverFrame(s, s.tracked[id], claimant);
    UnqueueFrame(TakeOver(s, s.tracked[id], claimant), Named(s, id).agent, id);
  }

  lemma PushChangesOnlyThisRun(c: Config, s: State, id: RunId, cmd: Command, now: Time)
    requires WellFormed(s) && id in s.tracked
    ensures var t, h := PushTo(c, s, id, cmd, now), s.tracked[id];
      t.tracked == s.tracked && t.made == s.made[h := s.made[h].(inQueue := s.made[h].inQueue + [cmd])]
  {
    hide NoteAbnormal;
  }

  method FinishRun(broker: RunBroker, id: RunId, claimant: Key, now: Time) returns (ended: bool)
    requires broker.Valid()
    modifies broker`unservedSince, broker.live, if id in broker.runs then {broker.runs[id]} else {}
    ensures broker.Valid()
    ensures ended == (var s := old(broker.Abstract());
                      id in s.tracked && s.made[s.tracked[id]].claimedBy == Some(claimant))
    ensures broker.Abstract() == Finished(broker.config, old(broker.Abstract()), id, claimant, now)
  {
    hide PushTo, RecordsOf, Handles;
    broker.KnownIds();
    if id !in broker.runs {
      return false;
    }
    broker.NamedRun(id);
    if broker.runs[id].claimedBy != Some(claimant) {
      return false;
    }
    ended := broker.PushCommand(id, FinishStream, now);
  }

  /** A report is nothing but a late ack and, if its provider then holds the run, a push; so is an end marker, the
      ack apart. Every theorem about executions covers them. */
  lemma ReportIsTwoSteps(c: Config, s: State, id: RunId, event: Event, claimant: Key, now: Time)
    requires WellFormed(s)
    ensures var acked := Next(c, s, LateAck(id, claimant), now);
      Reported(c, s, id, event, claimant, now)
      == if Holds(acked, id, claimant) then Next(c, acked, Push(id, RelayEvent(event)), now) else acked
    ensures Finished(c, s, id, claimant, now)
         == if Holds(s, id, claimant) then Next(c, s, Push(id, FinishStream), now) else s
  {
  }

  /** Whoever is heard holds the run from then on: a report by anyone else changes nothing, and a report that is heard
      reaches its own run and no other, behind a claim if nobody held it before. */
  lemma OnlyTheHolderIsHeard(c: Config, s: State, id: RunId, event: Event, claimant: Key, now: Time)
    requires WellFormed(s)
    ensures var t := Reported(c, s, id, event, claimant, now);
      if Heard(s, id, claimant) then
        var h := s.tracked[id];
        && t.tracked == s.tracked && |t.made| == |s.made| && t.made == s.made[h := t.made[h]]
        && t.made[h].claimedBy == Some(claimant)
        && t.made[h].inQueue
           == s.made[h].inQueue + (if s.made[h].claimedBy.None? then [Claim] else []) + [RelayEvent(event)]
      else t == s
  {
    hide AcceptLateAck, PushTo, LateAckAllowed, Heard;
    HeardIsHeldOrAcked(s, id, claimant);
    HoldersWereHeard(s, id, claimant);
    WhoHoldsAfterAck(c, s, id, claimant, now);
    if LateAckAllowed(s, id, claimant) {
      AckTakesOnlyThisRun(c, s, id, claimant, now);
    } else {
      NoAckForAnother(c, s, id, claimant, now);
    }
    var acked := AcceptLateAck(c, s, id, claimant, now);
    if Holds(acked, id, claimant) {
      PushChangesOnlyThisRun(c, acked, id, RelayEvent(event), now);
    }
  }

  lemma HoldersWereHeard(s: State, id: RunId, claimant: Key)
    requires WellFormed(s)
    ensures Heard(s, id, claimant) ==> id in s.tracked
    ensures Heard(s, id, claimant) ==> (LateAckAllowed(s, id, claimant) <==> Named(s, id).claimedBy.None?)
  {
  }

  /** An end marker is heard from the run's holder only, and reaches that run only; any other changes nothing. */
  lemma OnlyTheHolderFinishes(c: Config, s: State, id: RunId, claimant: Key, now: Time)
    requires WellFormed(s)
    ensures var t := Finished(c, s, id, claimant, now);
      if id in s.tracked && s.made[s.tracked[id]].claimedBy == Some(claimant) then
        var h := s.tracked[id];
        t.made == s.made[h := s.made[h].(inQueue := s.made[h].inQueue + [FinishStream])] && t.tracked == s.tracked
      else t == s
  {
    hide PushTo;
    if Holds(s, id, claimant) {
      PushChangesOnlyThisRun(c, s, id, FinishStream, now);
    }
  }
}

/**
 Exactly when enqueueing is safe: a contested id strands a run in some continuation, an uncontested one in
 none. Being untracked and in no queue is not enough.
 */
module BrokerContested {
  import opened Basics
  import opened Events
  import opened BrokerSpec
  import opened BrokerStranded

  ghost predicate Strands(s: State) {
    exists h: nat :: h < |s.made| && !Unstranded(s, h)
  }

  /** The moments happen one after the other from `s` and end in `t`. */
  ghost predicate LeadsTo(c: Config, s: State, moments: seq<Moment>, t: State)
    decreases |moments|
  {
    if moments == [] then t == s
    else
      && WellFormed(s) && Enabled(s, moments[0].step)
      && LeadsTo(c, Next(c, s, moments[0].step, moments[0].at), moments[1..], t)
  }

  predicate NoEnqueue(moments: seq<Moment>) {
    forall m :: m in moments ==> !m.step.Enqueue?
  }

  lemma ReEnqueued(s: State, id: RunId, agent: AgentRef, now: Time)
    requires WellFormed(s) && !s.sweep.Stopped?
    ensures var t := EnqueueRun(s, id, agent, true, now);
      && t.made == s.made + [RunRecord(id, agent, now, None, false, [], [], [], false)]
      && t.tracked == s.tracked[id := |s.made|] && t.sweep == s.sweep
  {
  }

  /** The id of `h` leads to a newer run whose stream is still open. */
  predicate Superseded(t: State, h: nat) {
    && WellFormed(t) && h < |t.made| && t.made[h].id in t.tracked
    && t.tracked[t.made[h].id] != h && !Named(t, t.made[h].id).ended
  }

  /** Ending an older object of the id forgets the new run, whose own stream never ends. */
  lemma EndingAnOlderRunStrands(t: State, h: nat, r: RunRecord)
    requires Superseded(t, h) && r.id == t.made[h].id
    ensures Strands(End(WithRun(t, h, r), h))
  {
    hide End;
    EndEffect(WithRun(t, h, r), h);
    assert !Unstranded(End(WithRun(t, h, r), h), t.tracked[r.id]);
  }

  lemma OneStep(c: Config, s: State, step: Step, now: Time)
    requires WellFormed(s) && Enabled(s, step)
    ensures LeadsTo(c, s, [Moment(step, now)], Next(c, s, step, now))
  {
    assert [Moment(step, now)][1..] == [];
  }

  lemma FirstStep(c: Config, s: State, step: Step, now: Time, rest: seq<Moment>, t: State)
    requires WellFormed(s) && Enabled(s, step) && LeadsTo(c, Next(c, s, step, now), rest, t)
    ensures LeadsTo(c, s, [Moment(step, now)] + rest, t)
  {
    assert ([Moment(step, now)] + rest)[1..] == rest;
  }

  lemma ShotStrands(c: Config, t: State, h: nat, now: Time)
    requires Superseded(t, h) && t.made[h].finishers != []
    ensures Enabled(t, FinishOneShot(h, 0)) && Strands(Next(c, t, FinishOneShot(h, 0), now))
  {
    hide End;
    EndingAnOlderRunStrands(t, h, t.made[h].(finishers := RemoveAt(t.made[h].finishers, 0)));
  }

  lemma ClosingStrands(c: Config, t: State, h: nat, task: nat, now: Time)
    requires Superseded(t, h) && CanComplete(t, h, task) && Closing(t.made[h], t.made[h].pipelines[task].cmd)
    ensures Enabled(t, Complete(h, task)) && Strands(Next(c, t, Complete(h, task), now))
  {
    hide End;
    EndingAnOlderRunStrands(t, h, t.made[h].(pipelines := RemoveAt(t.made[h].pipelines, task)));
  }

  /** The first pipeline of the older run is in a closing handler or will read a closing command. */
  predicate FirstPipelineEnds(r: RunRecord) {
    && r.pipelines != []
    && ((r.pipelines[0].Handling? && Closing(r, r.pipelines[0].cmd)) || WillEnd(r.inQueue, r.claimedBy.Some?))
  }

  lemma StillSuperseded(t: State, h: nat, r: RunRecord)
    requires Superseded(t, h) && r.id == t.made[h].id
    ensures Superseded(WithRun(t, h, r), h) && WithRun(t, h, r).made[h] == r
  {
  }

  lemma QuietCompletion(c: Config, t: State, h: nat, now: Time)
    requires Superseded(t, h) && FirstPipelineEnds(t.made[h]) && t.made[h].pipelines[0].Handling?
    requires !Closing(t.made[h], t.made[h].pipelines[0].cmd)
    ensures Enabled(t, Complete(h, 0))
    ensures var r, u := t.made[h], Next(c, t, Complete(h, 0), now);
      Superseded(u, h) && FirstPipelineEnds(u.made[h]) && u.made[h] == r.(pipelines := r.pipelines[0 := Waiting])
  {
    var r := t.made[h];
    StillSuperseded(t, h, r.(pipelines := r.pipelines[0 := Waiting]));
    hide Superseded, WillEnd;
    assert Next(c, t, Complete(h, 0), now) == WithRun(t, h, r.(pipelines := r.pipelines[0 := Waiting]));
  }

  lemma NextCommand(c: Config, t: State, h: nat, now: Time)
    requires Superseded(t, h) && FirstPipelineEnds(t.made[h]) && t.made[h].pipelines[0].Waiting?
    ensures t.made[h].inQueue != [] && Enabled(t, Take(h, 0))
    ensures var r, u := t.made[h], Next(c, t, Take(h, 0), now);
      Superseded(u, h) && FirstPipelineEnds(u.made[h]) && u.made[h].inQueue == r.inQueue[1..]
  {
    var r := t.made[h];
    var taken := r.(inQueue := r.inQueue[1..], pipelines := r.pipelines[0 := Handling(r.inQueue[0])]);
    StillSuperseded(t, h, taken);
    assert Next(c, t, Take(h, 0), now) == WithRun(t, h, taken);
    assert FirstPipelineEnds(taken);
  }

  /** It takes and completes commands one by one until it ends the run. */
  lemma {:induction false} PipelineStrands(c: Config, t: State, h: nat, now: Time) returns (moments: seq<Moment>,
                                           u: State)
    requires Superseded(t, h) && FirstPipelineEnds(t.made[h])
    ensures NoEnqueue(moments) && LeadsTo(c, t, moments, u) && Strands(u)
    decreases |t.made[h].inQueue|, t.made[h].pipelines[0].Handling?
  {
    hide LeadsTo, Strands, Next, WillEnd;
    var r := t.made[h];
    if r.pipelines[0].Handling? && Closing(r, r.pipelines[0].cmd) {
      ClosingStrands(c, t, h, 0, now);
      OneStep(c, t, Complete(h, 0), now);
      moments, u := [Moment(Complete(h, 0), now)], Next(c, t, Complete(h, 0), now);
    } else {
      var step := if r.pipelines[0].Handling? then Complete(h, 0) else Take(h, 0);
      if r.pipelines[0].Handling? {
        QuietCompletion(c, t, h, now);
      } else {
        NextCommand(c, t, h, now);
      }
      var rest, v := PipelineStrands(c, Next(c, t, step, now), h, now);
      FirstStep(c, t, step, now, rest, v);
      moments, u := [Moment(step, now)] + rest, v;
    }
  }

  /** A refusal of the older run, and the one-shot it spawns. */
  lemma OfferStrands(c: Config, t: State, h: nat, now: Time) returns (moments: seq<Moment>, u: State)
    requires Superseded(t, h) && OnOffer(t, h)
    ensures NoEnqueue(moments) && LeadsTo(c, t, moments, u) && Strands(u)
  {
    hide Unqueue, End, LeadsTo, Strands;
    var refused := OfferRefused(t, "");
    UnqueueFrame(SpawnFinisher(t, h, Fail("")), t.sweep.agent, t.made[h].id);
    assert Superseded(refused, h) && refused.made[h].finishers != [];
    ShotStrands(c, refused, h, now);
    OneStep(c, refused, FinishOneShot(h, 0), now);
    u := Next(c, refused, FinishOneShot(h, 0), now);
    FirstStep(c, t, Answered(Refused("")), now, [Moment(FinishOneShot(h, 0), now)], u);
    moments := [Moment(Answered(Refused("")), now)] + [Moment(FinishOneShot(h, 0), now)];
  }

  lemma HarmfulStrands(c: Config, t: State, h: nat, now: Time) returns (moments: seq<Moment>, u: State)
    requires Superseded(t, h) && !Harmless(t.made[h])
    ensures NoEnqueue(moments) && LeadsTo(c, t, moments, u) && Strands(u)
  {
    hide LeadsTo, Strands, CompleteCommand, FinishShot;
    var r := t.made[h];
    if r.finishers != [] {
      ShotStrands(c, t, h, now);
      OneStep(c, t, FinishOneShot(h, 0), now);
      moments, u := [Moment(FinishOneShot(h, 0), now)], Next(c, t, FinishOneShot(h, 0), now);
    } else if p :| p in r.pipelines && p.Handling? && Closing(r, p.cmd) {
      var task: nat :| task < |r.pipelines| && r.pipelines[task] == p;
      ClosingStrands(c, t, h, task, now);
      OneStep(c, t, Complete(h, task), now);
      moments, u := [Moment(Complete(h, task), now)], Next(c, t, Complete(h, task), now);
    } else {
      moments, u := PipelineStrands(c, t, h, now);
    }
  }

  lemma OverwritingStrands(s: State, id: RunId, agent: AgentRef, now: Time)
    requires Fit(s) && !s.sweep.Stopped? && id in s.tracked
    ensures Strands(EnqueueRun(s, id, agent, true, now))
  {
    assert RunFit(s, s.tracked[id]);
    assert !Unstranded(EnqueueRun(s, id, agent, true, now), s.tracked[id]);
  }

  /** Enqueueing a contested id strands a run, at once or in some continuation. */
  lemma ContestedIdsStrand(c: Config, s: State, id: RunId, agent: AgentRef, now: Time) returns (moments: seq<Moment>,
                           u: State)
    requires Fit(s) && !s.sweep.Stopped? && Contested(s, id)
    ensures NoEnqueue(moments) && LeadsTo(c, EnqueueRun(s, id, agent, true, now), moments, u) && Strands(u)
  {
    hide EnqueueRun, Strands, Harmless;
    var t := EnqueueRun(s, id, agent, true, now);
    ReEnqueued(s, id, agent, now);
    if id in s.tracked {
      OverwritingStrands(s, id, agent, now);
      moments, u := [], t;
    } else {
      var h: nat :| h < |s.made| && s.made[h].id == id && (OnOffer(s, h) || !Harmless(s.made[h]));
      assert t.made[h] == s.made[h];
      assert Superseded(t, h);
      if OnOffer(s, h) {
        moments, u := OfferStrands(c, t, h, now);
      } else {
        moments, u := HarmfulStrands(c, t, h, now);
      }
    }
  }

  lemma {:induction false} FitAllAlong(c: Config, s: State, moments: seq<Moment>, t: State)
    requires Fit(s) && NoEnqueue(moments) && LeadsTo(c, s, moments, t)
    ensures Fit(t)
    decreases |moments|
  {
    hide Next, Fit, Enabled;
    if moments != [] {
      var first := moments[0];
      assert first in moments;
      FitNext(c, s, first.step, first.at);
      FitAllAlong(c, Next(c, s, first.step, first.at), moments[1..], t);
    }
  }

  lemma FitStrandsNobody(s: State)
    requires Fit(s)
    ensures !Strands(s)
  {
    forall h: nat | h < |s.made| ensures Unstranded(s, h) {
      assert RunFit(s, h);
    }
  }

  /** In every state the protocol can be in, enqueueing an id can lead to a stranded run exactly if the id is
      contested. */
  lemma EnqueueStrandsIffContested(c: Config, s: State, id: RunId, agent: AgentRef, now: Time)
    requires Fit(s) && !s.sweep.Stopped?
    ensures Contested(s, id)
       <==> exists moments, u ::
              NoEnqueue(moments) && LeadsTo(c, EnqueueRun(s, id, agent, true, now), moments, u) && Strands(u)
  {
    hide EnqueueRun, Strands, Contested, LeadsTo, Fit;
    FitIsWellFormed(s);
    if Contested(s, id) {
      var moments, u := ContestedIdsStrand(c, s, id, agent, now);
    } else {
      var t := EnqueueRun(s, id, agent, true, now);
      FitEnqueue(s, id, agent, now);
      forall moments, u | NoEnqueue(moments) && LeadsTo(c, t, moments, u) ensures !Strands(u) {
        FitAllAlong(c, t, moments, u);
        FitStrandsNobody(u);
      }
    }
  }

  // ------------------------------------------------ a run of the broker in which it happens

  const AGENT := AgentRef("k", "n")
  const LINK := Connection(0, "k", None)
  const TWICE: seq<Step> :=
    [Start, Attach(LINK, {"n"}), Enqueue("r", AGENT, true), Cancel("r"), Cancel("r"), FinishOneShot(0, 0),
     Wake([AGENT]), Scan]

  function RunIn(cancels: seq<Command>, ended: bool): RunRecord {
    RunRecord("r", AGENT, 0, None, cancels != [], [], [], cancels, ended)
  }

  /** The broker of the scenario, its queue holding `queue` and the run being `r`. */
  function Served(r: seq<RunRecord>, tracked: bool, queues: map<AgentRef, seq<RunId>>, sweep: Sweep,
                  work: bool): State {
    State(r, if tracked then map["r" := 0] else map[], if tracked then {"r"} else {}, queues, map[AGENT := LINK],
          map[], map[],
          map["k" := Capacity(None, 0)], sweep, work)
  }

  function At(i: nat): State {
    var queued := map[AGENT := ["r"]];
    var cancelled := RunIn([RequestCancel], true);
    match i
    case 0 => INITIAL
    case 1 => INITIAL.(sweep := Ready)
    case 2 => Served([], false, map[], Ready, true)
    case 3 => Served([RunIn([], false)], true, queued, Ready, true)
    case 4 => Served([RunIn([RequestCancel], false)], true, queued, Ready, true)
    case 5 => Served([RunIn([RequestCancel, RequestCancel], false)], true, queued, Ready, true)
    case 6 => Served([cancelled], false, queued, Ready, true)
    case 7 => Served([cancelled], false, queued, Scanning([AGENT], false), false)
    case _ => Served([cancelled], false, map[AGENT := []], Scanning([], false), false)
  }

  lemma ScenarioStarts(c: Config)
    ensures Next(c, At(0), TWICE[0], 0) == At(1)
    ensures Next(c, At(1), TWICE[1], 0) == At(2)
  {
    assert RefsOf("k", {"n"}) == {AGENT};
  }

  lemma ScenarioEnqueues(c: Config)
    ensures Next(c, At(2), TWICE[2], 0) == At(3)
    ensures !Contested(At(2), "r")
  {
    assert EnqueueRun(At(2), "r", AGENT, true, 0).made == [RunIn([], false)];
    assert Queue(At(2), AGENT) + ["r"] == ["r"];
  }

  lemma ScenarioCancels(c: Config)
    ensures Next(c, At(3), TWICE[3], 0) == At(4)
    ensures Next(c, At(4), TWICE[4], 0) == At(5)
  {
    var none: seq<Command> := [];
    assert none + [RequestCancel] == [RequestCancel];
    assert [RequestCancel] + [RequestCancel] == [RequestCancel, RequestCancel];
    assert CancelRun(At(3), "r").made == [RunIn([RequestCancel], false)];
    assert CancelRun(At(4), "r").made == [RunIn([RequestCancel, RequestCancel], false)];
  }

  lemma ScenarioEnds(c: Config)
    ensures CanFinish(At(5), 0, 0) && Next(c, At(5), TWICE[5], 0) == At(6)
  {
    assert RemoveAt([RequestCancel, RequestCancel], 0) == [RequestCancel];
  }

  lemma ScenarioWakes(c: Config)
    ensures Enabled(At(6), TWICE[6]) && Next(c, At(6), TWICE[6], 0) == At(7)
  {
    var cutoff := 0 - c.unservedTimeout;
    assert ExpireAgents(At(6), [AGENT][1..], cutoff) == At(6);
    assert ExpireAgents(At(6), [AGENT], cutoff) == At(6);
  }

  lemma UnknownIsDropped(s: State, id: RunId)
    requires WellFormed(s) && id !in s.tracked
    ensures Offerable(s, [id]) == []
  {
    assert [id][1..] == [];
  }

  lemma ScenarioScans(c: Config)
    ensures Enabled(At(7), TWICE[7]) && Next(c, At(7), TWICE[7], 0) == At(8)
  {
    hide ScanNext;
    assert TWICE[7] == Scan;
    ScanDrops(At(7), AGENT, "r");
    assert At(7).pending[AGENT := []] == At(8).pending;
  }

  /** A scan of one served agent whose only entry is unknown empties its queue. */
  lemma ScanDrops(s: State, agent: AgentRef, id: RunId)
    requires WellFormed(s) && s.sweep == Scanning([agent], false)
    requires agent in s.links && agent in s.pending && s.pending[agent] == [id] && id !in s.tracked
    ensures ScanNext(s) == s.(pending := s.pending[agent := []], sweep := Scanning([], false))
  {
    hide Offerable, HasRoom;
    UnknownIsDropped(s, id);
    assert [agent][1..] == [];
  }

  /** Cancelling a queued run twice leaves a second finisher behind when the first has forgotten the id; once a
      sweep has dropped the entry, the id is untracked and in no queue, and yet enqueueing it would strand a run. */
  lemma UntrackedAndUnqueuedCanBeContested(c: Config) returns (states: seq<State>, moments: seq<Moment>)
    ensures UncontestedExecution(c, states, moments)
    ensures var s := states[|moments|];
      "r" !in s.tracked && (forall a :: "r" !in Queue(s, a)) && Contested(s, "r")
  {
    hide Next;
    states := seq(9, i requires 0 <= i < 9 => At(i));
    moments := seq(8, i requires 0 <= i < 8 => Moment(TWICE[i], 0));
    ScenarioStarts(c);
    ScenarioEnqueues(c);
    ScenarioCancels(c);
    ScenarioEnds(c);
    ScenarioWakes(c);
    ScenarioScans(c);
    assert At(8).made[0].finishers == [RequestCancel];
  }
}

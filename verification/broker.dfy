/**
 `RunBroker` as the object it is: fields updated in place, run objects shared with the offer and the
 tasks that hold them. Each method is proved to do exactly what its function in `BrokerSpec` says.
 */
module Broker {
  import opened Basics
  import opened Events
  import opened BrokerSpec
  import opened LiveRosters

  /** A run's mutable dispatch state. The two task lists stand for the asyncio tasks spawned for it. */
  class Run {
    ghost const handle: nat   // its place among the runs ever made
    const id: RunId
    const agent: AgentRef
    const queuedAt: Time
    var claimedBy: Option<Key>
    var cancelRequested: bool
    var inQueue: seq<Command>
    var pipelines: seq<Stage>
    var finishers: seq<Command>
    var ended: bool

    constructor (ghost handle: nat, id: RunId, agent: AgentRef, now: Time)
      ensures this.handle == handle && Record() == RunRecord(id, agent, now, None, false, [], [], [], false)
    {
      this.handle := handle;
      this.id, this.agent, this.queuedAt := id, agent, now;
      claimedBy, cancelRequested, inQueue := None, false, [];
      pipelines, finishers, ended := [], [], false;
    }

    ghost function Record(): RunRecord
      reads this
    {
      RunRecord(id, agent, queuedAt, claimedBy, cancelRequested, inQueue, pipelines, finishers, ended)
    }
  }

  /** Where the sweep loop stands; an outstanding offer holds the run object itself. */
  datatype Loop =
    | NotStarted
    | AtTop
    | Sleeping
    | Walking(left: seq<AgentRef>, placed: bool)
    | Awaiting(agent: AgentRef, run: Run, provider: Connection, left: seq<AgentRef>, placed: bool)

  ghost function Position(loop: Loop): Sweep {
    match loop
    case NotStarted => Stopped
    case AtTop => Ready
    case Sleeping => Asleep
    case Walking(left, placed) => Scanning(left, placed)
    case Awaiting(agent, run, provider, left, placed) => Offering(agent, run.handle, provider, left, placed)
  }

  ghost predicate IsMade(made: seq<Run>, run: Run) {
    run.handle < |made| && made[run.handle] == run
  }

  ghost predicate InPlace(made: seq<Run>) {
    forall i :: 0 <= i < |made| ==> made[i].handle == i
  }

  ghost predicate AllMade(made: seq<Run>, runs: map<RunId, Run>) {
    forall id :: id in runs ==> IsMade(made, runs[id]) && runs[id].id == id
  }

  ghost function RecordsOf(made: seq<Run>): (records: seq<RunRecord>)
    reads made
    ensures |records| == |made|
  {
    seq(|made|, i requires 0 <= i < |made| reads made => made[i].Record())
  }

  ghost function Handles(runs: map<RunId, Run>): map<RunId, nat> {
    map id | id in runs :: runs[id].handle
  }

  class RunBroker {
    var runs: map<RunId, Run>
    var pending: map<AgentRef, seq<RunId>>
    const live: LiveRoster
    var unservedSince: map<AgentRef, Time>
    var capacity: map<Key, Capacity>
    var handlers: set<RunId>
    var loop: Loop
    var workToDo: bool
    const config: Config
    ghost var made: seq<Run>   // every run object ever made, in order

    ghost predicate Owns(run: Run)
      reads this
    {
      IsMade(made, run)
    }

    ghost predicate Valid()
      reads this
    {
      && InPlace(made)
      && AllMade(made, runs)
      && (loop.Awaiting? ==> IsMade(made, loop.run))
    }

    /** The state of the machine this object is in. */
    ghost function Abstract(): (s: State)
      requires Valid()
      reads this, live, made
      ensures WellFormed(s)
    {
      State(RecordsOf(made), Handles(runs), handlers, pending, live.links, live.counters,
            unservedSince, capacity, Position(loop), workToDo)
    }

    constructor (config: Config)
      ensures Valid() && fresh(live) && made == [] && this.config == config && Abstract() == INITIAL
    {
      this.config := config;
      live := new LiveRoster();
      runs, pending, unservedSince, capacity, handlers := map[], map[], map[], map[], {};
      loop, workToDo, made := NotStarted, false, [];
    }

    method StartLoop()
      requires Valid()
      modifies this
      ensures Valid() && made == old(made)
      ensures Abstract() == if old(loop).NotStarted? then Next(config, old(Abstract()), Start, 0) else old(Abstract())
    {
      if loop.NotStarted? {
        loop, workToDo := AtTop, false;
      }
    }

    method StartClocks(agents: seq<AgentRef>, now: Time)
      requires forall a :: a in agents ==> a !in live.links
      modifies this`unservedSince
      ensures unservedSince == old(unservedSince) + ClocksAt((set a | a in agents), now)
    {
      for i := 0 to |agents|
        invariant unservedSince == old(unservedSince) + ClocksAt((set a | a in agents[..i]), now)
      {
        assert agents[..i + 1] == agents[..i] + [agents[i]];
        if agents[i] !in live.links {
          unservedSince := unservedSince[agents[i] := now];
        }
      }
      assert agents[..|agents|] == agents;
    }

    method UnregisterProvider(agents: seq<AgentRef>, now: Time)
      requires Valid()
      modifies this`unservedSince, live
      ensures Valid()
      ensures Abstract() == BrokerSpec.Withdraw(old(Abstract()), (set a | a in agents), now)
    {
      live.Withdraw(agents);
      StartClocks(agents, now);
      assert RecordsOf(made) == old(RecordsOf(made));
    }

    method NoteAbnormalEvent(key: Key, counter: Counter, now: Time)
      requires Valid()
      modifies this`unservedSince, live
      ensures Valid()
      ensures Abstract() == NoteAbnormal(config, old(Abstract()), key, counter, now)
    {
      live.NoteEvent(key, counter);
      assert RecordsOf(made) == old(RecordsOf(made));
      ghost var noted := Abstract();
      if config.tolerance.Some? && Count(live.counters, key, counter) >= config.tolerance.value {
        var agents := live.ServedBy(key);
        assert (set a | a in agents) == ServedBy(noted, key);
        if agents != [] {
          UnregisterProvider(agents, now);
        } else {
          assert ServedBy(noted, key) == {};
          WithdrawNobody(noted, now);
        }
      }
    }

    lemma WithdrawNobody(s: State, now: Time)
      ensures BrokerSpec.Withdraw(s, {}, now) == s
    {
    }

    method RegisterProvider(connection: Connection, names: set<string>)
      requires Valid()
      modifies this`unservedSince, this`capacity, this`workToDo, live
      ensures Valid()
      ensures Abstract() == Register(old(Abstract()), connection, names)
    {
      var agents := RefsOf(connection.key, names);
      live.Attach(map a | a in agents :: connection);
      unservedSince := unservedSince - agents;
      if connection.key !in capacity && agents != {} {
        capacity := capacity[connection.key := Capacity(connection.declared, 0)];
      }
      workToDo := true;
      assert RecordsOf(made) == old(RecordsOf(made));
    }

    method MakeRun(id: RunId, agent: AgentRef, now: Time) returns (run: Run)
      requires Valid()
      modifies this`made
      ensures Valid() && fresh(run) && Owns(run) && run.id == id && run.agent == agent && run.handle == |old(made)|
      ensures Abstract() ==
        old(Abstract()).(made := old(Abstract()).made + [RunRecord(id, agent, now, None, false, [], [], [], false)])
    {
      run := new Run(|made|, id, agent, now);
      made := made + [run];
      assert RecordsOf(made) == old(RecordsOf(made)) + [run.Record()];
    }

    method TrackRun(run: Run, withHandlers: bool)
      requires Valid() && Owns(run)
      modifies this`runs, this`pending, this`workToDo, this`handlers
      ensures Valid() && runs == old(runs)[run.id := run]
      ensures var s := old(Abstract());
        Abstract() == s.(tracked := s.tracked[run.id := run.handle],
                         pending := s.pending[run.agent := Queue(s, run.agent) + [run.id]],
                         handlers := if withHandlers then s.handlers + {run.id} else s.handlers,
                         workToDo := true)
    {
      hide RecordsOf;
      assert Handles(runs[run.id := run]) == Handles(runs)[run.id := run.handle];
      runs := runs[run.id := run];
      pending := pending[run.agent := (if run.agent in pending then pending[run.agent] else []) + [run.id]];
      workToDo := true;
      if withHandlers {
        handlers := handlers + {run.id};
      }
    }

    method EnqueueRun(id: RunId, agent: AgentRef, withHandlers: bool, now: Time) returns (result: Result<Run, string>)
      requires Valid()
      modifies this`made, this`runs, this`pending, this`workToDo, this`handlers
      ensures Valid()
      ensures Abstract() == BrokerSpec.EnqueueRun(old(Abstract()), id, agent, withHandlers, now)
      ensures result.Err? <==> loop.NotStarted?
      ensures result.Ok? ==> fresh(result.value) && id in runs && runs[id] == result.value
    {
      hide RecordsOf, Handles, InPlace, AllMade;
      if loop.NotStarted? {
        return Err("this broker is not running, so nothing would ever be dispatched");
      }
      var run := MakeRun(id, agent, now);
      TrackRun(run, withHandlers);
      return Ok(run);
    }

    /** One run object changed: the record at its handle, and nothing else. */
    twostate lemma OnlyThisRun(run: Run)
      requires old(Valid()) && made == old(made) && old(Owns(run))
      requires forall r :: r in made && r != run ==> unchanged(r)
      ensures RecordsOf(made) == old(RecordsOf(made))[run.handle := run.Record()]
    {
      forall i | 0 <= i < |made| ensures RecordsOf(made)[i] == old(RecordsOf(made))[run.handle := run.Record()][i] {
        if i != run.handle {
          assert made[i].handle == i && made[i] in made;
        }
      }
    }

    lemma NamedRun(id: RunId)
      requires Valid() && id in runs
      ensures id in Abstract().tracked && Named(Abstract(), id) == runs[id].Record()
      ensures Owns(runs[id]) && Handles(runs)[id] == runs[id].handle
    {
    }

    method UntrackRun(id: RunId)
      requires Valid()
      modifies this`runs, this`handlers
      ensures Valid()
      ensures var s := old(Abstract()); Abstract() == s.(tracked := s.tracked - {id}, handlers := s.handlers - {id})
    {
      hide RecordsOf;
      assert Handles(runs - {id}) == Handles(runs) - {id};
      runs := runs - {id};
      handlers := handlers - {id};
    }

    method Forget(id: RunId)
      requires Valid()
      modifies this`runs, this`handlers, this`capacity, this`workToDo
      ensures Valid()
      ensures Abstract() == BrokerSpec.Forget(old(Abstract()), id)
    {
      var run: Run? := if id in runs then runs[id] else null;
      if run != null {
        NamedRun(id);
      }
      hide RecordsOf, Handles, InPlace, AllMade;
      UntrackRun(id);
      if run != null && run.claimedBy.Some? {
        var key := run.claimedBy.value;
        if key in capacity && capacity[key].inFlight > 0 {
          capacity := capacity[key := capacity[key].(inFlight := capacity[key].inFlight - 1)];
          workToDo := true;
        }
      }
    }

    /** END_OF_STREAM, then forget: how every pipeline and one-shot leaves. */
    method EndRun(run: Run)
      requires Valid() && Owns(run)
      modifies this`runs, this`handlers, this`capacity, this`workToDo, run
      ensures Valid()
      ensures Abstract() == End(old(Abstract()), run.handle)
    {
      run.ended := true;
      OnlyThisRun(run);
      Forget(run.id);
    }

    method PushCommand(id: RunId, cmd: Command, now: Time) returns (known: bool)
      requires Valid()
      modifies this`unservedSince, live, if id in runs then {runs[id]} else {}
      ensures Valid() && known == (id in runs)
      ensures Abstract() == PushTo(config, old(Abstract()), id, cmd, now)
    {
      hide RecordsOf, Handles, InPlace, AllMade, Position, NoteAbnormal;
      KnownIds();
      if id !in runs {
        return false;
      }
      var run := runs[id];
      NamedRun(id);
      if cmd.Fail? && run.claimedBy.Some? {
        NoteAbnormalEvent(run.claimedBy.value, Abandoned, now);
      }
      PutCommand(run, cmd);
      return true;
    }

    method PutCommand(run: Run, cmd: Command)
      requires Valid() && Owns(run)
      modifies run`inQueue
      ensures Valid()
      ensures var s := old(Abstract());
        var r := s.made[run.handle];
        Abstract() == WithRun(s, run.handle, r.(inQueue := r.inQueue + [cmd]))
    {
      run.inQueue := run.inQueue + [cmd];
      OnlyThisRun(run);
    }

    method RequestCancellation(id: RunId) returns (known: bool)
      requires Valid()
      modifies if id in runs then {runs[id]} else {}
      ensures Valid() && known == (id in runs)
      ensures Abstract() == CancelRun(old(Abstract()), id)
    {
      if id !in runs {
        return false;
      }
      var run := runs[id];
      run.cancelRequested := true;
      if run.claimedBy.Some? {
        run.inQueue := run.inQueue + [RequestCancel];
      } else {
        run.finishers := run.finishers + [RequestCancel];
      }
      OnlyThisRun(run);
      return true;
    }

    method Dequeue(agent: AgentRef, id: RunId)
      requires Valid()
      modifies this`pending
      ensures Valid()
      ensures Abstract() == Unqueue(old(Abstract()), agent, id)
    {
      if agent in pending {
        pending := pending[agent := RemoveFirst(pending[agent], id)];
      }
      assert RecordsOf(made) == old(RecordsOf(made));
    }

    method Claim(run: Run, key: Key)
      requires Valid() && Owns(run)
      modifies this`capacity, run
      ensures Valid()
      ensures Abstract() == TakeOver(old(Abstract()), run.handle, key)
    {
      run.claimedBy := Some(key);
      if key in capacity {
        capacity := capacity[key := capacity[key].(inFlight := capacity[key].inFlight + 1)];
      }
      if run.id in handlers {
        run.pipelines := run.pipelines + [Waiting];
      }
      run.inQueue := run.inQueue + [Command.Claim];
      OnlyThisRun(run);
    }

    method LateAcknowledge(id: RunId, claimant: Key, now: Time) returns (taken: bool)
      requires Valid()
      modifies this`pending, this`capacity, this`unservedSince, live, if id in runs then {runs[id]} else {}
      ensures Valid() && taken == LateAckAllowed(old(Abstract()), id, claimant)
      ensures Abstract() == AcceptLateAck(config, old(Abstract()), id, claimant, now)
    {
      if id !in runs || runs[id].claimedBy.Some? {
        return false;
      }
      var run := runs[id];
      if run.agent !in live.links || live.links[run.agent].key != claimant {
        return false;
      }
      Claim(run, claimant);
      Dequeue(run.agent, id);
      NoteAbnormalEvent(claimant, AnsweredLate, now);
      return true;
    }

    method SpawnOneShot(run: Run, cmd: Command)
      requires Valid() && Owns(run)
      modifies run
      ensures Valid()
      ensures Abstract() == SpawnFinisher(old(Abstract()), run.handle, cmd)
    {
      run.finishers := run.finishers + [cmd];
      OnlyThisRun(run);
    }

    // ------------------------------------------------------------------------ the sweep loop

    method ExpireEntry(agent: AgentRef, id: RunId, cutoff: Time)
      requires Valid()
      modifies this`pending, if id in runs then {runs[id]} else {}
      ensures Valid()
      ensures Abstract() == ExpireOne(old(Abstract()), agent, id, cutoff)
    {
      if id !in runs {
        return;
      }
      NamedRun(id);
      var run := runs[id];
      var reference := if agent in unservedSince then Max(run.queuedAt, unservedSince[agent]) else run.queuedAt;
      if reference > cutoff {
        return;
      }
      Dequeue(agent, id);
      SpawnOneShot(run, Fail(NO_PROVIDER_REASON));
    }

    /** One agent's queue, walked over a snapshot while entries are removed. */
    method ExpireAgent(agent: AgentRef, cutoff: Time)
      requires Valid()
      modifies this`pending, runs.Values
      ensures Valid()
      ensures Abstract() == ExpireQueue(old(Abstract()), agent, old(Queue(Abstract(), agent)), cutoff)
    {
      var snapshot := if agent in pending then pending[agent] else [];
      ghost var start := Abstract();
      for i := 0 to |snapshot|
        invariant Valid()
        invariant ExpireQueue(Abstract(), agent, snapshot[i..], cutoff) == ExpireQueue(start, agent, snapshot, cutoff)
      {
        assert snapshot[i..][0] == snapshot[i] && snapshot[i..][1..] == snapshot[i + 1..];
        ExpireEntry(agent, snapshot[i], cutoff);
      }
    }

    method ExpireQueued(order: seq<AgentRef>, now: Time)
      requires Valid()
      modifies this`pending, runs.Values
      ensures Valid()
      ensures Abstract() == ExpireAgents(old(Abstract()), order, now - config.unservedTimeout)
    {
      hide RecordsOf, Handles, InPlace, AllMade, ExpireQueue, Position;
      var cutoff := now - config.unservedTimeout;
      ghost var start := Abstract();
      for i := 0 to |order|
        invariant Valid()
        invariant ExpireAgents(Abstract(), order[i..], cutoff) == ExpireAgents(start, order, cutoff)
      {
        assert order[i..][0] == order[i] && order[i..][1..] == order[i + 1..];
        if order[i] !in live.links {
          ExpireAgent(order[i], cutoff);
        }
      }
    }

    /** The top of the loop: expire, clear the event, start a sweep over the agents in `order`. */
    method BeginSweep(order: seq<AgentRef>, now: Time)
      requires Valid() && (loop.AtTop? || loop.Sleeping?)
      modifies this`pending, this`loop, this`workToDo, runs.Values
      ensures Valid()
      ensures Abstract() == WakeUp(config, old(Abstract()), order, now)
    {
      hide RecordsOf, Handles, InPlace, AllMade, ExpireAgents;
      ExpireQueued(order, now);
      workToDo := false;
      loop := Walking(order, false);
    }

    /** Drops the cancelled and unknown runs at the head of a queue. */
    method DropUnofferable(queue: seq<RunId>) returns (rest: seq<RunId>)
      requires Valid()
      ensures rest == Offerable(Abstract(), queue)
      ensures rest != [] ==> rest[0] in runs && Owns(runs[rest[0]]) && Handles(runs)[rest[0]] == runs[rest[0]].handle
    {
      hide RecordsOf, Handles, InPlace, AllMade, Position, Offerable;
      rest := queue;
      ghost var s := Abstract();
      KnownIds();
      while rest != [] && (rest[0] !in runs || runs[rest[0]].cancelRequested)
        invariant Offerable(s, rest) == Offerable(s, queue)
        decreases |rest|
      {
        if rest[0] in runs {
          NamedRun(rest[0]);
        }
        OfferableHead(s, rest);
        rest := rest[1..];
      }
      OfferableHead(s, rest);
      if rest != [] {
        NamedRun(rest[0]);
      }
    }

    lemma OfferableHead(s: State, queue: seq<RunId>)
      requires WellFormed(s)
      ensures Offerable(s, queue)
           == if queue != [] && (queue[0] !in s.tracked || Named(s, queue[0]).cancelRequested)
              then Offerable(s, queue[1..]) else queue
    {
    }

    lemma KnownIds()
      requires Valid()
      ensures Abstract().tracked.Keys == runs.Keys
    {
    }

    /** One scan step of a served agent with a deque, case by case. */
    lemma ScansServed(s: State, agent: AgentRef, queue: seq<RunId>)
      requires WellFormed(s) && s.sweep.Scanning? && s.sweep.left != [] && agent == s.sweep.left[0]
      requires agent in s.links && agent in s.pending && queue == Offerable(s, s.pending[agent])
      ensures var Scanning(left, placed) := s.sweep;
        var replaced := s.(pending := s.pending[agent := queue]);
        if queue == [] || !HasRoom(s, s.links[agent].key)
        then ScanNext(s) == replaced.(sweep := Scanning(left[1..], placed))
        else ScanNext(s) == replaced.(sweep := Offering(agent, s.tracked[queue[0]], s.links[agent], left[1..], placed))
    {
    }

    method MoveLoop(next: Loop)
      requires Valid() && (next.Awaiting? ==> Owns(next.run))
      modifies this`loop
      ensures Valid() && loop == next && Abstract() == old(Abstract()).(sweep := Position(next))
    {
      loop := next;
    }

    method ReplaceQueue(agent: AgentRef, queue: seq<RunId>)
      requires Valid()
      modifies this`pending
      ensures Valid() && pending == old(pending)[agent := queue]
      ensures Abstract() == old(Abstract()).(pending := pending)
    {
      pending := pending[agent := queue];
    }

    /** `_offer_pending` for the agent in turn, up to its next await. */
    method OfferPending()
      requires Valid() && loop.Walking?
      modifies this`pending, this`loop
      ensures Valid()
      ensures Abstract() == ScanNext(old(Abstract()))
    {
      var left, placed := loop.left, loop.placed;
      if left == [] {
        MoveLoop(if placed then AtTop else Sleeping);
      } else if left[0] !in live.links || left[0] !in pending {
        MoveLoop(Walking(left[1..], placed));
      } else {
        OfferFrom(left[0], left[1..], placed);
      }
    }

    /** The agent in turn is served and has a deque: the first run worth offering, if any and if there is room. */
    method OfferFrom(agent: AgentRef, rest: seq<AgentRef>, placed: bool)
      requires Valid() && loop == Walking([agent] + rest, placed) && agent in live.links && agent in pending
      modifies this`pending, this`loop
      ensures Valid()
      ensures Abstract() == ScanNext(old(Abstract()))
    {
      hide Offerable, RecordsOf, Handles, InPlace, AllMade, WellFormed, ScanNext;
      ghost var s := Abstract();
      assert s.sweep == Scanning([agent] + rest, placed);
      assert s.pending == pending;
      assert s.links == live.links;
      assert s.capacity == capacity && s.tracked == Handles(runs);
      assert s.sweep.left[0] == agent;
      assert s.sweep.left[1..] == rest;
      var provider := live.links[agent];
      var queue := DropUnofferable(pending[agent]);
      ScansServed(s, agent, queue);
      hide Abstract, Valid;
      ReplaceQueue(agent, queue);
      ghost var replaced := Abstract();
      assert replaced == s.(pending := s.pending[agent := queue]);
      if queue == [] || (provider.key in capacity && !capacity[provider.key].HasRoom()) {
        assert queue == [] || !HasRoom(s, provider.key);
        MoveLoop(Walking(rest, placed));
      } else {
        assert HasRoom(s, provider.key);
        var run := runs[queue[0]];
        assert run.handle == s.tracked[queue[0]];
        MoveLoop(Awaiting(agent, run, provider, rest, placed));
      }
    }

    method AnswerMissing(now: Time)
      requires Valid() && loop.Awaiting?
      modifies this`loop, this`unservedSince, live
      ensures Valid()
      ensures Abstract() == OfferUnanswered(config, old(Abstract()), now)
    {
      hide RecordsOf, Handles, InPlace, AllMade, NoteAbnormal;
      NoteAbnormalEvent(loop.provider.key, Unanswered, now);
      loop := Walking(loop.left, loop.placed);
    }

    method AnswerDeclined(now: Time)
      requires Valid() && loop.Awaiting?
      modifies this`loop, this`unservedSince, this`capacity, live
      ensures Valid()
      ensures Abstract() == OfferDeclined(config, old(Abstract()), now)
    {
      hide RecordsOf, Handles, InPlace, AllMade, NoteAbnormal;
      var key := loop.provider.key;
      if key in capacity && capacity[key].HasRoom() {
        NoteAbnormalEvent(key, Misdeclared, now);
        var bucket := capacity[key];
        if bucket.declared.Some? {
          capacity := capacity[key := bucket.(inFlight := bucket.declared.value)];
        }
      }
      loop := Walking(loop.left, loop.placed);
    }

    method AnswerRefused(reason: string)
      requires Valid() && loop.Awaiting?
      modifies this`loop, this`pending, loop.run
      ensures Valid()
      ensures Abstract() == OfferRefused(old(Abstract()), reason)
    {
      var Awaiting(agent, run, _, left, placed) := loop;
      OwnedRecord(run);
      hide RecordsOf, Handles, InPlace, AllMade, Unqueue;
      SpawnOneShot(run, Fail(reason));
      ghost var spawned := Abstract();
      Dequeue(agent, run.id);
      UnqueueFrame(spawned, agent, run.id);
      loop := Walking([agent] + left, placed);
    }

    method AnswerAccepted()
      requires Valid() && loop.Awaiting?
      modifies this`loop, this`pending, this`capacity, loop.run
      ensures Valid()
      ensures Abstract() == OfferAccepted(old(Abstract()))
    {
      var Awaiting(agent, run, provider, left, _) := loop;
      OwnedRecord(run);
      hide RecordsOf, Handles, InPlace, AllMade, Unqueue, TakeOver;
      Claim(run, provider.key);
      ghost var claimed := Abstract();
      Dequeue(agent, run.id);
      UnqueueFrame(claimed, agent, run.id);
      loop := Walking([agent] + left, true);
    }

    lemma OwnedRecord(run: Run)
      requires Valid() && Owns(run)
      ensures run.handle < |Abstract().made| && Abstract().made[run.handle] == run.Record()
    {
    }

    /** The rest of the offer, once `deliver` has answered, timed out or raised. */
    method FinishOffer(answer: Answer, now: Time)
      requires Valid() && loop.Awaiting?
      modifies this`pending, this`loop, this`capacity, this`unservedSince, live, loop.run
      ensures Valid()
      ensures Abstract() == AnswerOffer(config, old(Abstract()), answer, now)
    {
      hide OfferUnanswered, OfferRefused, OfferDeclined, OfferAccepted, RecordsOf, Handles;
      match answer
      case NoAnswer => AnswerMissing(now);
      case Refused(reason) => AnswerRefused(reason);
      case Declined => AnswerDeclined(now);
      case Accepted => AnswerAccepted();
    }

    // ------------------------------------------------------------------ pipelines and one-shots

    /** A pipeline task of `run` gets the next command; a malformed event is handled before any await. */
    method TakeNext(run: Run, task: nat, now: Time)
      requires Valid() && Owns(run) && CanTake(Abstract(), run.handle, task)
      modifies this`unservedSince, live, run, if run.id in runs then {runs[run.id]} else {}
      ensures Valid()
      ensures Abstract() == TakeCommand(config, old(Abstract()), run.handle, task, now)
    {
      var cmd := run.inQueue[0];
      if cmd.RelayEvent? && cmd.event.Invalid? {
        run.inQueue := [];
        OnlyThisRun(run);
        var _ := PushCommand(run.id, Fail(MALFORMED_REASON), now);
      } else {
        run.inQueue := run.inQueue[1..];
        run.pipelines := run.pipelines[task := Handling(cmd)];
        OnlyThisRun(run);
      }
    }

    /** The handler of a command returned: the pipeline waits again, or ends the run. */
    method HandlerDone(run: Run, task: nat)
      requires Valid() && Owns(run) && CanComplete(Abstract(), run.handle, task)
      modifies this`runs, this`handlers, this`capacity, this`workToDo, run
      ensures Valid()
      ensures Abstract() == CompleteCommand(old(Abstract()), run.handle, task)
    {
      var cmd := run.pipelines[task].cmd;
      if cmd.FinishStream? || cmd.Fail? || (cmd.RequestCancel? && run.claimedBy.None?) {
        run.pipelines := RemoveAt(run.pipelines, task);
        OnlyThisRun(run);
        EndRun(run);
      } else {
        run.pipelines := run.pipelines[task := Waiting];
        OnlyThisRun(run);
      }
    }

    method OneShotDone(run: Run, task: nat)
      requires Valid() && Owns(run) && CanFinish(Abstract(), run.handle, task)
      modifies this`runs, this`handlers, this`capacity, this`workToDo, run
      ensures Valid()
      ensures Abstract() == FinishShot(old(Abstract()), run.handle, task)
    {
      run.finishers := RemoveAt(run.finishers, task);
      OnlyThisRun(run);
      EndRun(run);
    }
  }
}

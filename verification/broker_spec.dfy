/**
 The dispatch protocol of `broker.py` as a state machine: one function per atomic step, an
 `await` ending a step. Run objects live in `made`, addressed by their position, because an
 offer, a pipeline and a one-shot finisher each hold the *object* while `push` and `forget`
 go by run id.
 */
module BrokerSpec {
  import opened Basics
  import opened Events

  type Key = string

  datatype AgentRef = AgentRef(providerKey: Key, name: string)

  /** A live connection; `link` tells apart two connections of one provider. */
  datatype Connection = Connection(link: nat, key: Key, declared: Option<int>)

  datatype Counter = Misdeclared | Abandoned | Unanswered | AnsweredLate

  datatype Capacity = Capacity(declared: Option<int>, inFlight: nat) {
    predicate HasRoom() {
      declared.None? || inFlight < declared.value
    }
  }

  /** Where a pipeline task stands: waiting on its run's queue, or inside the handler of a command. */
  datatype Stage = Waiting | Handling(cmd: Command)

  datatype RunRecord = RunRecord(
    id: RunId,
    agent: AgentRef,
    queuedAt: Time,
    claimedBy: Option<Key>,
    cancelRequested: bool,
    inQueue: seq<Command>,
    pipelines: seq<Stage>,     // pipeline tasks spawned for this object and still alive
    finishers: seq<Command>,   // one-shot tasks spawned for this object and not yet done
    ended: bool)               // END_OF_STREAM is on its out_queue

  datatype Sweep =
    | Stopped
    | Ready                                             // about to run the top of the loop
    | Asleep                                            // waiting for work_to_do or its timeout
    | Scanning(left: seq<AgentRef>, placed: bool)
    | Offering(agent: AgentRef, run: nat, provider: Connection, left: seq<AgentRef>, placed: bool)

  datatype State = State(
    made: seq<RunRecord>,
    tracked: map<RunId, nat>,
    handlers: set<RunId>,
    pending: map<AgentRef, seq<RunId>>,
    links: map<AgentRef, Connection>,
    counters: Counters,
    unservedSince: map<AgentRef, Time>,
    capacity: map<Key, Capacity>,
    sweep: Sweep,
    workToDo: bool)

  const INITIAL := State([], map[], {}, map[], map[], map[], map[], map[], Stopped, false)

  datatype Config = Config(unservedTimeout: int, tolerance: Option<int>)

  datatype Answer = NoAnswer | Refused(reason: string) | Declined | Accepted

  datatype Step =
    | Start
    | Enqueue(id: RunId, agent: AgentRef, withHandlers: bool)
    | Attach(connection: Connection, names: set<string>)
    | Detach(agents: set<AgentRef>)
    | Wake(order: seq<AgentRef>)
    | Scan
    | Answered(answer: Answer)
    | Push(id: RunId, cmd: Command)
    | Cancel(id: RunId)
    | LateAck(id: RunId, claimant: Key)
    | Take(run: nat, task: nat)
    | Complete(run: nat, task: nat)
    | FinishOneShot(run: nat, task: nat)

  /** Handles stay inside the run table, and a tracked id leads to a run of that id. */
  predicate WellFormed(s: State) {
    && (forall id :: id in s.tracked ==> s.tracked[id] < |s.made| && s.made[s.tracked[id]].id == id)
    && (s.sweep.Offering? ==> s.sweep.run < |s.made|)
  }

  function Queue(s: State, agent: AgentRef): seq<RunId> {
    if agent in s.pending then s.pending[agent] else []
  }

  type Counters = map<Key, map<Counter, nat>>

  function Count(counters: Counters, key: Key, counter: Counter): nat {
    if key in counters && counter in counters[key] then counters[key][counter] else 0
  }

  function InFlight(s: State, key: Key): nat {
    if key in s.capacity then s.capacity[key].inFlight else 0
  }

  /** The run a live id names. */
  function Named(s: State, id: RunId): RunRecord
    requires WellFormed(s) && id in s.tracked
  {
    s.made[s.tracked[id]]
  }

  function WithRun(s: State, h: nat, r: RunRecord): (t: State)
    requires WellFormed(s) && h < |s.made| && r.id == s.made[h].id
    ensures WellFormed(t)
  {
    s.(made := s.made[h := r])
  }

  /** `queue.remove(run_id)` on the agent's deque, a missing entry being no error. */
  function Unqueue(s: State, agent: AgentRef, id: RunId): State {
    if agent in s.pending then s.(pending := s.pending[agent := RemoveFirst(s.pending[agent], id)]) else s
  }

  function AddInFlight(s: State, key: Key): State {
    if key in s.capacity
    then s.(capacity := s.capacity[key := s.capacity[key].(inFlight := s.capacity[key].inFlight + 1)])
    else s
  }

  function ClocksAt(agents: set<AgentRef>, now: Time): map<AgentRef, Time> {
    map a | a in agents :: now
  }

  function Withdraw(s: State, agents: set<AgentRef>, now: Time): State {
    s.(links := s.links - agents, unservedSince := s.unservedSince + ClocksAt(agents, now))
  }

  const NO_COUNTS: map<Counter, nat> := map[Misdeclared := 0, Abandoned := 0, Unanswered := 0, AnsweredLate := 0]

  function Note(counters: Counters, key: Key, counter: Counter): map<Key, map<Counter, nat>> {
    var bucket := if key in counters then counters[key] else NO_COUNTS;
    counters[key := bucket[counter := (if counter in bucket then bucket[counter] else 0) + 1]]
  }

  lemma NoteCounts(counters: Counters, key: Key, counter: Counter, k: Key, e: Counter)
    ensures Count(Note(counters, key, counter), k, e)
         == Count(counters, k, e) + if k == key && e == counter then 1 else 0
  {
  }

  function ServedBy(s: State, key: Key): set<AgentRef> {
    set a | a in s.links && a.providerKey == key
  }

  /** Counts one abnormal event; a provider whose counter reaches the allowance stops being served. */
  function NoteAbnormal(c: Config, s: State, key: Key, counter: Counter, now: Time): (t: State)
    ensures t.made == s.made && t.tracked == s.tracked && t.sweep == s.sweep && t.handlers == s.handlers
    ensures t.pending == s.pending && t.capacity == s.capacity && t.workToDo == s.workToDo
    ensures t.counters == Note(s.counters, key, counter)
  {
    var noted := s.(counters := Note(s.counters, key, counter));
    if c.tolerance.None? || Count(noted.counters, key, counter) < c.tolerance.value then noted
    else Withdraw(noted, ServedBy(noted, key), now)
  }

  /** The run becomes `key`'s: claimed, one more in flight, a pipeline started, `Claim` queued to it. */
  function TakeOver(s: State, h: nat, key: Key): (t: State)
    requires WellFormed(s) && h < |s.made|
    ensures WellFormed(t)
  {
    var r := s.made[h];
    var started := if r.id in s.handlers then r.pipelines + [Waiting] else r.pipelines;
    WithRun(AddInFlight(s, key), h,
            r.(claimedBy := Some(key), pipelines := started, inQueue := r.inQueue + [Claim]))
  }

  lemma TakeOverFrame(s: State, h: nat, key: Key)
    requires WellFormed(s) && h < |s.made|
    ensures var t := TakeOver(s, h, key);
      && t == s.(made := t.made, capacity := t.capacity) && t.capacity == AddInFlight(s, key).capacity
      && |t.made| == |s.made| && t.made[h].agent == s.made[h].agent && t.made[h].id == s.made[h].id
      && t.made == s.made[h := t.made[h]] && t.made[h].claimedBy == Some(key)
  {
  }

  lemma UnqueueFrame(s: State, agent: AgentRef, id: RunId)
    ensures Unqueue(s, agent, id) == s.(pending := Unqueue(s, agent, id).pending)
  {
    hide RemoveFirst;
  }

  function SpawnFinisher(s: State, h: nat, cmd: Command): (t: State)
    requires WellFormed(s) && h < |s.made|
    ensures WellFormed(t)
  {
    WithRun(s, h, s.made[h].(finishers := s.made[h].finishers + [cmd]))
  }

  /** The id's run is claimed and its claimant's bucket is not empty. */
  predicate FreesSlot(s: State, id: RunId)
    requires WellFormed(s)
  {
    && id in s.tracked && Named(s, id).claimedBy.Some?
    && Named(s, id).claimedBy.value in s.capacity
    && s.capacity[Named(s, id).claimedBy.value].inFlight > 0
  }

  function FreedBuckets(s: State, id: RunId): map<Key, Capacity>
    requires WellFormed(s)
  {
    if FreesSlot(s, id) then
      var bucket := s.capacity[Named(s, id).claimedBy.value];
      s.capacity[Named(s, id).claimedBy.value := bucket.(inFlight := bucket.inFlight - 1)]
    else s.capacity
  }

  /** `forget`: by id, whichever object holds it. */
  function Forget(s: State, id: RunId): (t: State)
    requires WellFormed(s)
    ensures WellFormed(t)
  {
    s.(tracked := s.tracked - {id}, handlers := s.handlers - {id},
       capacity := FreedBuckets(s, id), workToDo := s.workToDo || FreesSlot(s, id))
  }

  /** END_OF_STREAM on the run's out_queue, then forget. */
  function End(s: State, h: nat): (t: State)
    requires WellFormed(s) && h < |s.made|
    ensures WellFormed(t)
  {
    Forget(WithRun(s, h, s.made[h].(ended := true)), s.made[h].id)
  }

  /** A `Fail` pushed for a claimed run counts as abandonment against its claimant. */
  function NoteAbandoned(c: Config, s: State, r: RunRecord, cmd: Command, now: Time): (t: State)
    ensures t.made == s.made && t.tracked == s.tracked && t.sweep == s.sweep && t.handlers == s.handlers
    ensures t.pending == s.pending && t.capacity == s.capacity && t.workToDo == s.workToDo
  {
    if cmd.Fail? && r.claimedBy.Some? then NoteAbnormal(c, s, r.claimedBy.value, Abandoned, now) else s
  }

  lemma EndEffect(s: State, h: nat)
    requires WellFormed(s) && h < |s.made|
    ensures var t := End(s, h);
      && t == s.(made := t.made, tracked := t.tracked, handlers := t.handlers, capacity := t.capacity,
                 workToDo := t.workToDo)
      && t.made == s.made[h := s.made[h].(ended := true)]
      && t.tracked == s.tracked - {s.made[h].id} && t.handlers == s.handlers - {s.made[h].id}
  {
  }

  function PushTo(c: Config, s: State, id: RunId, cmd: Command, now: Time): (t: State)
    requires WellFormed(s)
    ensures WellFormed(t)
  {
    if id !in s.tracked then s
    else
      var r := Named(s, id);
      WithRun(NoteAbandoned(c, s, r, cmd, now), s.tracked[id], r.(inQueue := r.inQueue + [cmd]))
  }

  function EnqueueRun(s: State, id: RunId, agent: AgentRef, withHandlers: bool, now: Time): (t: State)
    requires WellFormed(s)
    ensures WellFormed(t)
  {
    if s.sweep.Stopped? then s   // RuntimeError: nothing would ever dispatch it
    else
      s.(made := s.made + [RunRecord(id, agent, now, None, false, [], [], [], false)],
         tracked := s.tracked[id := |s.made|],
         pending := s.pending[agent := Queue(s, agent) + [id]],
         handlers := if withHandlers then s.handlers + {id} else s.handlers,
         workToDo := true)
  }

  function RefsOf(key: Key, names: set<string>): set<AgentRef> {
    set n | n in names :: AgentRef(key, n)
  }

  /** `register_provider`, on the mapping `_Roster.attach` builds: every ref carries the connection's key. */
  function Register(s: State, connection: Connection, names: set<string>): State {
    var agents := RefsOf(connection.key, names);
    var capacity :=
      if connection.key in s.capacity || agents == {} then s.capacity
      else s.capacity[connection.key := Capacity(connection.declared, 0)];
    s.(links := s.links + (map a | a in agents :: connection),
       unservedSince := s.unservedSince - agents,
       capacity := capacity,
       workToDo := true)
  }

  function CancelRun(s: State, id: RunId): (t: State)
    requires WellFormed(s)
    ensures WellFormed(t)
  {
    if id !in s.tracked then s
    else
      var r := Named(s, id).(cancelRequested := true);
      WithRun(s, s.tracked[id],
              if r.claimedBy.Some? then r.(inQueue := r.inQueue + [RequestCancel])
              else r.(finishers := r.finishers + [RequestCancel]))
  }

  predicate LateAckAllowed(s: State, id: RunId, claimant: Key)
    requires WellFormed(s)
  {
    && id in s.tracked
    && Named(s, id).claimedBy.None?
    && Named(s, id).agent in s.links
    && s.links[Named(s, id).agent].key == claimant
  }

  function AcceptLateAck(c: Config, s: State, id: RunId, claimant: Key, now: Time): (t: State)
    requires WellFormed(s)
    ensures WellFormed(t)
  {
    if !LateAckAllowed(s, id, claimant) then s
    else
      var claimed := TakeOver(s, s.tracked[id], claimant);
      NoteAbnormal(c, Unqueue(claimed, Named(s, id).agent, id), claimant, AnsweredLate, now)
  }

  /** Where an entry's grace starts: the later of its run's enqueue and its agent's loss of a provider. */
  function GraceStart(s: State, agent: AgentRef, id: RunId): Time
    requires WellFormed(s) && id in s.tracked
  {
    var queuedAt := Named(s, id).queuedAt;
    if agent in s.unservedSince then Max(queuedAt, s.unservedSince[agent]) else queuedAt
  }

  predicate Expires(s: State, agent: AgentRef, id: RunId, cutoff: Time)
    requires WellFormed(s)
  {
    id in s.tracked && GraceStart(s, agent, id) <= cutoff
  }

  const NO_PROVIDER_REASON := "no_provider_took_it"

  function ExpireOne(s: State, agent: AgentRef, id: RunId, cutoff: Time): (t: State)
    requires WellFormed(s)
    ensures WellFormed(t) && t.tracked == s.tracked && t.sweep == s.sweep
  {
    if Expires(s, agent, id, cutoff)
    then SpawnFinisher(Unqueue(s, agent, id), s.tracked[id], Fail(NO_PROVIDER_REASON))
    else s
  }

  function ExpireQueue(s: State, agent: AgentRef, ids: seq<RunId>, cutoff: Time): (t: State)
    requires WellFormed(s)
    ensures WellFormed(t) && t.tracked == s.tracked && t.sweep == s.sweep
    decreases |ids|
  {
    if ids == [] then s else ExpireQueue(ExpireOne(s, agent, ids[0], cutoff), agent, ids[1..], cutoff)
  }

  function ExpireAgents(s: State, agents: seq<AgentRef>, cutoff: Time): (t: State)
    requires WellFormed(s)
    ensures WellFormed(t) && t.tracked == s.tracked && t.sweep == s.sweep
    decreases |agents|
  {
    if agents == [] then s
    else
      var first := if agents[0] in s.links then s else ExpireQueue(s, agents[0], Queue(s, agents[0]), cutoff);
      ExpireAgents(first, agents[1..], cutoff)
  }

  /** The top of the sweep loop: expire, clear the event, and list the agents that have a deque. */
  function WakeUp(c: Config, s: State, order: seq<AgentRef>, now: Time): (t: State)
    requires WellFormed(s)
    ensures WellFormed(t)
  {
    ExpireAgents(s, order, now - c.unservedTimeout).(workToDo := false, sweep := Scanning(order, false))
  }

  /** A queue without the entries at its head that are unknown or cancelled. */
  function Offerable(s: State, queue: seq<RunId>): (rest: seq<RunId>)
    requires WellFormed(s)
    ensures |rest| <= |queue| && rest == queue[|queue| - |rest|..]
    ensures rest != [] ==> rest[0] in s.tracked && !Named(s, rest[0]).cancelRequested
  {
    if queue != [] && (queue[0] !in s.tracked || Named(s, queue[0]).cancelRequested)
    then Offerable(s, queue[1..])
    else queue
  }

  predicate HasRoom(s: State, key: Key) {
    key in s.capacity ==> s.capacity[key].HasRoom()
  }

  /** The queues after one scan step: a served agent's queue loses its unofferable head. */
  function ScannedQueues(s: State): map<AgentRef, seq<RunId>>
    requires WellFormed(s) && s.sweep.Scanning?
  {
    var left := s.sweep.left;
    if left == [] || left[0] !in s.links || left[0] !in s.pending then s.pending
    else s.pending[left[0] := Offerable(s, s.pending[left[0]])]
  }

  /** Where one scan step gets to: asleep, past an agent with nothing to offer or no room, or an offer. */
  function ScannedSweep(s: State): (sweep: Sweep)
    requires WellFormed(s) && s.sweep.Scanning?
    ensures sweep.Offering? ==> sweep.run < |s.made|
  {
    var Scanning(left, placed) := s.sweep;
    if left == [] then if placed then Ready else Asleep
    else
      var queue := Offerable(s, Queue(s, left[0]));
      if left[0] !in s.links || queue == [] || !HasRoom(s, s.links[left[0]].key) then Scanning(left[1..], placed)
      else Offering(left[0], s.tracked[queue[0]], s.links[left[0]], left[1..], placed)
  }

  /** `_offer_pending` from its loop head up to its next await or its return. */
  function ScanNext(s: State): (t: State)
    requires WellFormed(s) && s.sweep.Scanning?
    ensures WellFormed(t)
  {
    s.(pending := ScannedQueues(s), sweep := ScannedSweep(s))
  }

  /** No answer within the delivery timeout, or an exception: back to the queue it never left. */
  function OfferUnanswered(c: Config, s: State, now: Time): (t: State)
    requires WellFormed(s) && s.sweep.Offering?
    ensures WellFormed(t)
  {
    NoteAbnormal(c, s, s.sweep.provider.key, Unanswered, now).(sweep := Scanning(s.sweep.left, s.sweep.placed))
  }

  /** A permanent refusal: the run is failed with the reason and leaves the queue. */
  function OfferRefused(s: State, reason: string): (t: State)
    requires WellFormed(s) && s.sweep.Offering?
    ensures WellFormed(t)
  {
    var Offering(agent, h, _, left, placed) := s.sweep;
    Unqueue(SpawnFinisher(s, h, Fail(reason)), agent, s.made[h].id).(sweep := Scanning([agent] + left, placed))
  }

  predicate BelievedFree(s: State, key: Key) {
    key in s.capacity && s.capacity[key].HasRoom()
  }

  /** A declared limit counts as reached once the provider declines with room. */
  function FilledBuckets(s: State, key: Key): map<Key, Capacity> {
    if BelievedFree(s, key) && s.capacity[key].declared.Some?
    then s.capacity[key := s.capacity[key].(inFlight := s.capacity[key].declared.value)]
    else s.capacity
  }

  /** A decline from a provider believed to have room is abnormal. */
  function OfferDeclined(c: Config, s: State, now: Time): (t: State)
    requires WellFormed(s) && s.sweep.Offering?
    ensures WellFormed(t)
  {
    var key := s.sweep.provider.key;
    var noted := if BelievedFree(s, key) then NoteAbnormal(c, s, key, Misdeclared, now) else s;
    noted.(sweep := Scanning(s.sweep.left, s.sweep.placed), capacity := FilledBuckets(s, key))
  }

  function OfferAccepted(s: State): (t: State)
    requires WellFormed(s) && s.sweep.Offering?
    ensures WellFormed(t)
  {
    var Offering(agent, h, provider, left, _) := s.sweep;
    Unqueue(TakeOver(s, h, provider.key), agent, s.made[h].id).(sweep := Scanning([agent] + left, true))
  }

  /** The rest of `_offer` and of the `_offer_pending` iteration, once the provider has answered or not. */
  function AnswerOffer(c: Config, s: State, answer: Answer, now: Time): (t: State)
    requires WellFormed(s) && s.sweep.Offering?
    ensures WellFormed(t)
  {
    match answer
    case NoAnswer => OfferUnanswered(c, s, now)
    case Refused(reason) => OfferRefused(s, reason)
    case Declined => OfferDeclined(c, s, now)
    case Accepted => OfferAccepted(s)
  }

  function Drained(s: State, h: nat): (t: State)
    requires WellFormed(s) && h < |s.made|
    ensures WellFormed(t)
  {
    WithRun(s, h, s.made[h].(inQueue := []))
  }

  function StartHandling(s: State, h: nat, task: nat): (t: State)
    requires WellFormed(s) && CanTake(s, h, task)
    ensures WellFormed(t)
  {
    var r := s.made[h];
    WithRun(s, h, r.(inQueue := r.inQueue[1..], pipelines := r.pipelines[task := Handling(r.inQueue[0])]))
  }

  /** A pipeline gets the head of its run's queue. A malformed event is dealt with on the spot:
      the queue is drained and a `Fail` pushed, by run id. Every other handler awaits something. */
  function TakeCommand(c: Config, s: State, h: nat, task: nat, now: Time): (t: State)
    requires WellFormed(s) && CanTake(s, h, task)
    ensures WellFormed(t)
  {
    if Malformed(s.made[h].inQueue[0]) then PushTo(c, Drained(s, h), s.made[h].id, Fail(MALFORMED_REASON), now)
    else StartHandling(s, h, task)
  }

  predicate Closing(r: RunRecord, cmd: Command) {
    Closes(cmd, r.claimedBy.Some?)
  }

  /** A handler returns (or raised): the pipeline goes back to its queue, or ends the run. */
  function CompleteCommand(s: State, h: nat, task: nat): (t: State)
    requires WellFormed(s) && CanComplete(s, h, task)
    ensures WellFormed(t)
  {
    var r := s.made[h];
    if Closing(r, r.pipelines[task].cmd) then
      End(WithRun(s, h, r.(pipelines := RemoveAt(r.pipelines, task))), h)
    else WithRun(s, h, r.(pipelines := r.pipelines[task := Waiting]))
  }

  function FinishShot(s: State, h: nat, task: nat): (t: State)
    requires WellFormed(s) && CanFinish(s, h, task)
    ensures WellFormed(t)
  {
    End(WithRun(s, h, s.made[h].(finishers := RemoveAt(s.made[h].finishers, task))), h)
  }

  predicate CanTake(s: State, h: nat, task: nat) {
    h < |s.made| && s.made[h].inQueue != [] && task < |s.made[h].pipelines| && s.made[h].pipelines[task].Waiting?
  }

  predicate CanComplete(s: State, h: nat, task: nat) {
    h < |s.made| && task < |s.made[h].pipelines| && s.made[h].pipelines[task].Handling?
  }

  predicate CanFinish(s: State, h: nat, task: nat) {
    h < |s.made| && task < |s.made[h].finishers|
  }

  predicate Enabled(s: State, step: Step) {
    match step
    case Start => s.sweep.Stopped?
    case Wake(order) =>
      (s.sweep.Ready? || s.sweep.Asleep?) && NoDuplicates(order) && (set a | a in order) == s.pending.Keys
    case Scan => s.sweep.Scanning?
    case Answered(_) => s.sweep.Offering?
    case Take(h, task) => CanTake(s, h, task)
    case Complete(h, task) => CanComplete(s, h, task)
    case FinishOneShot(h, task) => CanFinish(s, h, task)
    case _ => true
  }

  function Next(c: Config, s: State, step: Step, now: Time): (t: State)
    requires WellFormed(s) && Enabled(s, step)
    ensures WellFormed(t)
  {
    match step
    case Start => s.(sweep := Ready, workToDo := false)
    case Enqueue(id, agent, withHandlers) => EnqueueRun(s, id, agent, withHandlers, now)
    case Attach(connection, names) => Register(s, connection, names)
    case Detach(agents) => Withdraw(s, agents, now)
    case Wake(order) => WakeUp(c, s, order, now)
    case Scan => ScanNext(s)
    case Answered(answer) => AnswerOffer(c, s, answer, now)
    case Push(id, cmd) => PushTo(c, s, id, cmd, now)
    case Cancel(id) => CancelRun(s, id)
    case LateAck(id, claimant) => AcceptLateAck(c, s, id, claimant, now)
    case Take(h, task) => TakeCommand(c, s, h, task, now)
    case Complete(h, task) => CompleteCommand(s, h, task)
    case FinishOneShot(h, task) => FinishShot(s, h, task)
  }

  // ---------------------------------------------------------------- runs of the machine

  datatype Moment = Moment(step: Step, at: Time)

  /** `states` is what a broker goes through when `moments` happen to it, in order. */
  predicate Execution(c: Config, states: seq<State>, moments: seq<Moment>) {
    && |states| == |moments| + 1
    && states[0] == INITIAL
    && (forall i :: 0 <= i < |states| ==> WellFormed(states[i]))
    && (forall i :: 0 <= i < |moments| ==> Happens(c, states[i], moments[i], states[i + 1]))
  }

  predicate Happens(c: Config, s: State, m: Moment, t: State)
    requires WellFormed(s)
  {
    Enabled(s, m.step) && t == Next(c, s, m.step, m.at)
  }
}

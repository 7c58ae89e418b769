/**
 The provider runtime's intake (`runtime.py`): how many delivered runs it can hold and run at once.
 A task leaves `_in_flight` only when its done-callback runs, which goes by run id.
 */
module Runtime {
  import opened Basics

  /** `declared` is max_concurrent_runs and `queue` max_queued_runs. */
  datatype Limits = Limits(declared: Option<int>, queue: int)

  datatype Intake = Intake(
    running: bool,
    jobs: seq<RunId>,
    inFlight: map<RunId, nat>,   // run id to the task last spawned for it
    tasks: map<nat, RunId>,      // every task whose done-callback has not run yet
    spawned: nat)

  const IDLE := Intake(false, [], map[], map[], 0)

  datatype Step = Start | Deliver(id: RunId) | TakeJob | TaskDone(task: nat)

  /** asyncio.Queue: a maxsize of zero or less means no limit. */
  predicate Full(limits: Limits, jobs: seq<RunId>) {
    limits.declared.Some? && limits.queue > 0 && |jobs| >= limits.queue
  }

  predicate Accepts(limits: Limits, s: Intake) {
    && s.running
    && !(limits.declared.Some? && |s.inFlight| >= limits.declared.value)
    && !Full(limits, s.jobs)
  }

  predicate Enabled(s: Intake, step: Step) {
    match step
    case Start => true
    case Deliver(_) => true
    case TakeJob => s.running && s.jobs != []
    case TaskDone(task) => task in s.tasks
  }

  function Next(limits: Limits, s: Intake, step: Step): Intake
    requires Enabled(s, step)
  {
    match step
    case Start => s.(running := true)
    case Deliver(id) => if Accepts(limits, s) then s.(jobs := s.jobs + [id]) else s
    case TakeJob =>
      s.(jobs := s.jobs[1..], inFlight := s.inFlight[s.jobs[0] := s.spawned],
         tasks := s.tasks[s.spawned := s.jobs[0]], spawned := s.spawned + 1)
    case TaskDone(task) => s.(inFlight := s.inFlight - {s.tasks[task]}, tasks := s.tasks - {task})
  }

  class ProviderRuntime {
    const limits: Limits
    var running: bool
    var jobs: seq<RunId>
    var inFlight: map<RunId, nat>
    var tasks: map<nat, RunId>
    var spawned: nat

    constructor (limits: Limits)
      ensures this.limits == limits && Abstract() == IDLE
    {
      this.limits := limits;
      running, jobs, inFlight, tasks, spawned := false, [], map[], map[], 0;
    }

    ghost function Abstract(): Intake
      reads this
    {
      Intake(running, jobs, inFlight, tasks, spawned)
    }

    method StartLoops()
      modifies this
      ensures Abstract() == Next(limits, old(Abstract()), Start)
    {
      if !running {
        running := true;
      }
    }

    method DeliverRun(id: RunId) returns (taken: bool)
      modifies this
      ensures Abstract() == Next(limits, old(Abstract()), Deliver(id))
      ensures taken <==> && old(running)
                         && (limits.declared.None? || |old(inFlight)| < limits.declared.value)
                         && (limits.declared.None? || limits.queue <= 0 || |old(jobs)| < limits.queue)
      ensures jobs == if taken then old(jobs) + [id] else old(jobs)
    {
      if !running {
        return false;
      }
      if limits.declared.Some? && |inFlight| >= limits.declared.value {
        return false;
      }
      var maxsize := if limits.declared.Some? then limits.queue else 0;
      if maxsize > 0 && |jobs| >= maxsize {
        return false;
      }
      jobs := jobs + [id];
      return true;
    }

    /** One turn of `_run_jobs`: the next job becomes a task. */
    method RunNextJob() returns (task: nat)
      requires running && jobs != []
      modifies this
      ensures Abstract() == Next(limits, old(Abstract()), Step.TakeJob)
      ensures task == old(spawned)
    {
      var id := jobs[0];
      task := spawned;
      jobs, spawned := jobs[1..], spawned + 1;
      tasks := tasks[task := id];
      inFlight := inFlight[id := task];
    }

    method DoneCallback(task: nat)
      requires task in tasks
      modifies this
      ensures Abstract() == Next(limits, old(Abstract()), Step.TaskDone(task))
    {
      inFlight := inFlight - {tasks[task]};
      tasks := tasks - {task};
    }
  }

  // -------------------------------------------------------------------------------- the bound

  /** The states `steps` leads through. */
  predicate Execution(limits: Limits, states: seq<Intake>, steps: seq<Step>) {
    && |states| == |steps| + 1
    && states[0] == IDLE
    && forall i :: 0 <= i < |steps| ==>
         Enabled(states[i], steps[i]) && states[i + 1] == Next(limits, states[i], steps[i])
  }

  // ---------------------------------------------------------------- a runtime without a limit

  predicate EverStarted(steps: seq<Step>, n: nat)
    requires n <= |steps|
  {
    exists i :: 0 <= i < n && steps[i].Start?
  }

  lemma {:induction false} RunningOnceStarted(limits: Limits, states: seq<Intake>, steps: seq<Step>, n: nat)
    requires Execution(limits, states, steps) && n <= |steps|
    ensures states[n].running <==> EverStarted(steps, n)
  {
    if n > 0 {
      RunningOnceStarted(limits, states, steps, n - 1);
      assert states[n - 1 + 1] == Next(limits, states[n - 1], steps[n - 1]);
    }
  }

  /** The runs delivered since the runtime was first started, in order. */
  function Delivered(steps: seq<Step>, n: nat): seq<RunId>
    requires n <= |steps|
  {
    if n == 0 then []
    else Delivered(steps, n - 1) + if steps[n - 1].Deliver? && EverStarted(steps, n - 1) then [steps[n - 1].id] else []
  }

  lemma UnlimitedStep(limits: Limits, s: Intake, step: Step, delivered: seq<RunId>)
    requires limits.declared.None? && Enabled(s, step)
    requires s.spawned <= |delivered| && s.jobs == delivered[s.spawned..]
    ensures var t, more := Next(limits, s, step), delivered + if step.Deliver? && s.running then [step.id] else [];
      t.spawned <= |more| && t.jobs == more[t.spawned..]
  {
  }

  lemma DeliveredOneMore(steps: seq<Step>, n: nat)
    requires n < |steps|
    ensures Delivered(steps, n + 1)
         == Delivered(steps, n) + if steps[n].Deliver? && EverStarted(steps, n) then [steps[n].id] else []
  {
  }

  /** A runtime that declares no limit never declines: whatever its queue size, every run delivered to it since it
      was started waits, in order, or has been spawned. */
  lemma {:induction false} UnlimitedNeverDeclines(limits: Limits, states: seq<Intake>, steps: seq<Step>, n: nat)
    requires Execution(limits, states, steps) && n <= |steps| && limits.declared.None?
    ensures states[n].spawned <= |Delivered(steps, n)|
    ensures states[n].jobs == Delivered(steps, n)[states[n].spawned..]
  {
    if n > 0 {
      UnlimitedNeverDeclines(limits, states, steps, n - 1);
      RunningOnceStarted(limits, states, steps, n - 1);
      DeliveredOneMore(steps, n - 1);
      assert states[n - 1 + 1] == Next(limits, states[n - 1], steps[n - 1]);
      hide Delivered, EverStarted, Next, Enabled;
      UnlimitedStep(limits, states[n - 1], steps[n - 1], Delivered(steps, n - 1));
    }
  }

  // ------------------------------------------------------------------------- whom a cancel would reach

  /** The task last spawned for the run, unless a task of it has finished since. */
  function LastSpawned(states: seq<Intake>, steps: seq<Step>, n: nat, id: RunId): Option<nat>
    requires |states| == |steps| + 1 && n <= |steps|
  {
    if n == 0 then None
    else
      var s := states[n - 1];
      match steps[n - 1]
      case TakeJob =>
        if s.jobs != [] && s.jobs[0] == id then Some(s.spawned) else LastSpawned(states, steps, n - 1, id)
      case TaskDone(task) =>
        if task in s.tasks && s.tasks[task] == id then None else LastSpawned(states, steps, n - 1, id)
      case _ => LastSpawned(states, steps, n - 1, id)
  }

  /** A run is in flight under the task last spawned for it, and until any of its tasks finishes: the older task of a
      run delivered twice takes the newer one's entry with it. */
  lemma {:induction false} InFlightIsLastSpawned(limits: Limits, states: seq<Intake>, steps: seq<Step>, n: nat,
                                                 id: RunId)
    requires Execution(limits, states, steps) && n <= |steps|
    ensures id in states[n].inFlight <==> LastSpawned(states, steps, n, id).Some?
    ensures id in states[n].inFlight ==> LastSpawned(states, steps, n, id) == Some(states[n].inFlight[id])
  {
    hide Accepts;
    if n > 0 {
      InFlightIsLastSpawned(limits, states, steps, n - 1, id);
      assert states[n - 1 + 1] == Next(limits, states[n - 1], steps[n - 1]);
    }
  }

  /** No run is delivered while the runtime already holds a run of that id. */
  predicate NewId(s: Intake, step: Step) {
    step.Deliver? ==> step.id !in s.jobs && step.id !in s.tasks.Values
  }

  /** Every task is in flight under its own run's id. */
  predicate OneTaskPerId(s: Intake) {
    && NoDuplicates(s.jobs)
    && (forall id :: id in s.jobs ==> id !in s.tasks.Values)
    && (forall id :: id in s.inFlight ==> s.inFlight[id] in s.tasks && s.tasks[s.inFlight[id]] == id)
    && (forall task :: task in s.tasks ==> task < s.spawned && s.tasks[task] in s.inFlight)
    && (forall task :: task in s.tasks ==> s.inFlight[s.tasks[task]] == task)
    && |s.inFlight| == |s.tasks|
  }

  lemma TakeKeepsOneTaskPerId(limits: Limits, s: Intake)
    requires OneTaskPerId(s) && Enabled(s, TakeJob)
    ensures OneTaskPerId(Next(limits, s, TakeJob))
  {
    var t, id := Next(limits, s, TakeJob), s.jobs[0];
    forall x | x in s.inFlight ensures x in s.tasks.Values {
      assert s.tasks[s.inFlight[x]] == x;
    }
    assert forall i :: 0 <= i < |t.jobs| ==> t.jobs[i] == s.jobs[i + 1];
    assert forall v :: v in t.tasks.Values ==> v in s.tasks.Values || v == id;
  }

  lemma DoneKeepsOneTaskPerId(limits: Limits, s: Intake, task: nat)
    requires OneTaskPerId(s) && Enabled(s, TaskDone(task))
    ensures OneTaskPerId(Next(limits, s, TaskDone(task)))
  {
    var t := Next(limits, s, TaskDone(task));
    assert |t.tasks| == |s.tasks| - 1 by { assert s.tasks == t.tasks[task := s.tasks[task]]; }
    assert |t.inFlight| == |s.inFlight| - 1 by {
      assert s.inFlight == t.inFlight[s.tasks[task] := s.inFlight[s.tasks[task]]];
    }
    assert forall v :: v in t.tasks.Values ==> v in s.tasks.Values;
  }

  lemma StepKeepsOneTaskPerId(limits: Limits, s: Intake, step: Step)
    requires OneTaskPerId(s) && Enabled(s, step) && NewId(s, step)
    ensures OneTaskPerId(Next(limits, s, step))
  {
    match step
    case TakeJob => TakeKeepsOneTaskPerId(limits, s);
    case TaskDone(task) => DoneKeepsOneTaskPerId(limits, s, task);
    case _ => hide Accepts;
  }

  predicate Fits(limits: Limits, s: Intake)
    requires limits.declared.Some?
  {
    |s.tasks| + |s.jobs| <= limits.declared.value - 1 + limits.queue
  }

  lemma StepFits(limits: Limits, s: Intake, step: Step)
    requires limits.declared.Some? && limits.queue >= 1 && |s.inFlight| == |s.tasks|
    requires Enabled(s, step) && Fits(limits, s)
    ensures Fits(limits, Next(limits, s, step))
  {
    if step.TaskDone? {
      assert s.tasks == Next(limits, s, step).tasks[step.task := s.tasks[step.task]];
    }
  }

  /** With both limits at least one and no id delivered twice at a time, running and waiting runs together
      never exceed max_concurrent_runs - 1 + max_queued_runs; with the default queue of one, never more
      than declared. */
  lemma {:induction false} IntakeBound(limits: Limits, states: seq<Intake>, steps: seq<Step>, n: nat)
    requires Execution(limits, states, steps) && n <= |steps|
    requires limits.declared.Some? && limits.declared.value >= 1 && limits.queue >= 1
    requires forall i :: 0 <= i < |steps| ==> NewId(states[i], steps[i])
    ensures OneTaskPerId(states[n]) && Fits(limits, states[n])
    ensures limits.queue == 1 ==> |states[n].tasks| + |states[n].jobs| <= limits.declared.value
  {
    if n > 0 {
      IntakeBound(limits, states, steps, n - 1);
      StepKeepsOneTaskPerId(limits, states[n - 1], steps[n - 1]);
      StepFits(limits, states[n - 1], steps[n - 1]);
      hide Next, OneTaskPerId, Fits, Enabled;
      assert states[n] == Next(limits, states[n - 1], steps[n - 1]);
    }
  }

  // ----------------------------------------------------------------- the bound is reached, and lost

  function Name(n: nat): RunId {
    seq(n, _ => 'r')
  }

  lemma NamesDiffer(m: nat, n: nat)
    requires m != n
    ensures Name(m) != Name(n)
  {
    assert |Name(m)| == m && |Name(n)| == n;
  }

  /** Runs named in turn: the first `tasks` of them running, the next `jobs` waiting. */
  ghost predicate Loaded(s: Intake, tasks: nat, jobs: nat) {
    && s.running && s.spawned == tasks && |s.jobs| == jobs
    && (forall i :: 0 <= i < jobs ==> s.jobs[i] == Name(tasks + i))
    && (forall task: nat :: task in s.tasks <==> task < tasks)
    && (forall task :: task in s.tasks ==> s.tasks[task] == Name(task))
    && OneTaskPerId(s) && |s.tasks| == tasks
  }

  ghost predicate Reaches(limits: Limits, states: seq<Intake>, steps: seq<Step>, tasks: nat, jobs: nat) {
    && |states| == |steps| + 1
    && Execution(limits, states, steps)
    && (forall i :: 0 <= i < |steps| ==> NewId(states[i], steps[i]))
    && Loaded(states[|steps|], tasks, jobs)
  }

  lemma StepReaches(limits: Limits, states: seq<Intake>, steps: seq<Step>, step: Step, tasks: nat, jobs: nat)
    requires |states| == |steps| + 1 && Execution(limits, states, steps)
    requires forall i :: 0 <= i < |steps| ==> NewId(states[i], steps[i])
    requires Enabled(states[|steps|], step) && NewId(states[|steps|], step)
    requires Loaded(Next(limits, states[|steps|], step), tasks, jobs)
    ensures Reaches(limits, states + [Next(limits, states[|steps|], step)], steps + [step], tasks, jobs)
  {
    hide Next, Loaded, NewId, Enabled;
  }

  lemma OneMoreJob(limits: Limits, states: seq<Intake>, steps: seq<Step>, tasks: nat, jobs: nat)
    returns (states': seq<Intake>, steps': seq<Step>)
    requires Reaches(limits, states, steps, tasks, jobs) && Accepts(limits, states[|steps|])
    ensures Reaches(limits, states', steps', tasks, jobs + 1)
  {
    var s, step := states[|steps|], Deliver(Name(tasks + jobs));
    DeliveryLoads(limits, s, tasks, jobs);
    StepReaches(limits, states, steps, step, tasks, jobs + 1);
    states', steps' := states + [Next(limits, s, step)], steps + [step];
  }

  lemma DeliveryLoads(limits: Limits, s: Intake, tasks: nat, jobs: nat)
    requires Loaded(s, tasks, jobs) && Accepts(limits, s)
    ensures NewId(s, Deliver(Name(tasks + jobs)))
    ensures Loaded(Next(limits, s, Deliver(Name(tasks + jobs))), tasks, jobs + 1)
  {
    hide OneTaskPerId, Name;
    NameIsNew(s, tasks, jobs);
    StepKeepsOneTaskPerId(limits, s, Deliver(Name(tasks + jobs)));
  }

  lemma TakeLoads(limits: Limits, s: Intake, tasks: nat, jobs: nat)
    requires Loaded(s, tasks, jobs) && jobs > 0
    ensures Loaded(Next(limits, s, TakeJob), tasks + 1, jobs - 1)
  {
    hide OneTaskPerId, Name;
    StepKeepsOneTaskPerId(limits, s, TakeJob);
    assert |Next(limits, s, TakeJob).tasks| == |s.tasks| + 1;
  }

  lemma NameIsNew(s: Intake, tasks: nat, jobs: nat)
    requires Loaded(s, tasks, jobs)
    ensures NewId(s, Deliver(Name(tasks + jobs)))
  {
    var id := Name(tasks + jobs);
    forall task | task in s.tasks ensures s.tasks[task] != id {
      NamesDiffer(task, tasks + jobs);
    }
    forall i | 0 <= i < |s.jobs| ensures s.jobs[i] != id {
      NamesDiffer(tasks + i, tasks + jobs);
    }
  }

  lemma OneMoreTask(limits: Limits, states: seq<Intake>, steps: seq<Step>, tasks: nat, jobs: nat)
    returns (states': seq<Intake>, steps': seq<Step>)
    requires Reaches(limits, states, steps, tasks, jobs) && jobs > 0
    ensures Reaches(limits, states', steps', tasks + 1, jobs - 1)
  {
    var s := states[|steps|];
    TakeLoads(limits, s, tasks, jobs);
    StepReaches(limits, states, steps, TakeJob, tasks + 1, jobs - 1);
    states', steps' := states + [Next(limits, s, TakeJob)], steps + [TakeJob];
  }

  /** The bound is exact: the intake checks how many runs are in flight, not how many are waiting, and every
      waiting run is started, so a queue of more than one runs more than was declared. */
  lemma IntakeBoundIsReached(limits: Limits) returns (states: seq<Intake>, steps: seq<Step>)
    requires limits.declared.Some? && limits.declared.value >= 1 && limits.queue >= 1
    ensures Execution(limits, states, steps)
    ensures forall i :: 0 <= i < |steps| ==> NewId(states[i], steps[i])
    ensures |states[|steps|].tasks| == limits.declared.value - 1 + limits.queue
  {
    hide Execution, NewId, Loaded, Accepts;
    states, steps := Started(limits);
    var tasks, jobs := 0, 0;
    while tasks < limits.declared.value - 1
      invariant 0 <= tasks <= limits.declared.value - 1 && Reaches(limits, states, steps, tasks, 0)
    {
      HasRoom(limits, states[|steps|], tasks, 0);
      states, steps := OneMoreJob(limits, states, steps, tasks, 0);
      states, steps := OneMoreTask(limits, states, steps, tasks, 1);
      tasks := tasks + 1;
    }
    while jobs < limits.queue
      invariant 0 <= jobs <= limits.queue && Reaches(limits, states, steps, tasks, jobs)
    {
      HasRoom(limits, states[|steps|], tasks, jobs);
      states, steps := OneMoreJob(limits, states, steps, tasks, jobs);
      jobs := jobs + 1;
    }
    while jobs > 0
      invariant jobs >= 0 && tasks + jobs == limits.declared.value - 1 + limits.queue
      invariant Reaches(limits, states, steps, tasks, jobs)
    {
      states, steps := OneMoreTask(limits, states, steps, tasks, jobs);
      tasks, jobs := tasks + 1, jobs - 1;
    }
    LoadedSize(states[|steps|], tasks, jobs);
  }

  lemma LoadedSize(s: Intake, tasks: nat, jobs: nat)
    requires Loaded(s, tasks, jobs)
    ensures |s.tasks| == tasks && |s.jobs| == jobs
  {
  }

  lemma HasRoom(limits: Limits, s: Intake, tasks: nat, jobs: nat)
    requires Loaded(s, tasks, jobs) && limits.declared.Some?
    requires tasks < limits.declared.value && (limits.queue > 0 ==> jobs < limits.queue)
    ensures Accepts(limits, s)
  {
  }

  lemma Started(limits: Limits) returns (states: seq<Intake>, steps: seq<Step>)
    ensures Reaches(limits, states, steps, 0, 0)
  {
    var s := Next(limits, IDLE, Start);
    states, steps := [IDLE, s], [Start];
    assert Loaded(s, 0, 0);
  }

  /** A queue size of zero does not mean "no queue": any number of runs can then be waiting. */
  lemma ZeroQueueIsUnbounded(limits: Limits, n: nat) returns (states: seq<Intake>, steps: seq<Step>)
    requires limits.declared.Some? && limits.declared.value >= 1 && limits.queue <= 0
    ensures Execution(limits, states, steps) && |states[|steps|].jobs| == n
  {
    hide Execution, NewId, Loaded, Accepts;
    states, steps := Started(limits);
    var jobs := 0;
    while jobs < n
      invariant 0 <= jobs <= n && Reaches(limits, states, steps, 0, jobs)
    {
      HasRoom(limits, states[|steps|], 0, jobs);
      states, steps := OneMoreJob(limits, states, steps, 0, jobs);
      jobs := jobs + 1;
    }
    LoadedSize(states[|steps|], 0, jobs);
  }
}

/**
 What distinct ids are for: delivering an id the runtime still holds can break the intake bound, and nothing
 else can. The done-callback goes by run id, so of two tasks of one id the second is soon not counted.
 */
module RepeatedIds {
  import opened Basics
  import opened Runtime

  /** The steps happen one after the other from `s`, every delivery being of a new id, and end in `t`. */
  ghost predicate LeadsTo(limits: Limits, s: Intake, steps: seq<Step>, t: Intake)
    decreases |steps|
  {
    if steps == [] then t == s
    else Enabled(s, steps[0]) && NewId(s, steps[0]) && LeadsTo(limits, Next(limits, s, steps[0]), steps[1..], t)
  }

  lemma {:induction false} OneMoreStep(limits: Limits, s: Intake, steps: seq<Step>, t: Intake, step: Step)
    requires LeadsTo(limits, s, steps, t) && Enabled(t, step) && NewId(t, step)
    ensures LeadsTo(limits, s, steps + [step], Next(limits, t, step))
    decreases |steps|
  {
    hide Next, NewId;
    if steps == [] {
      assert ([] + [step])[1..] == [] && ([] + [step])[0] == step;
    } else {
      OneMoreStep(limits, Next(limits, s, steps[0]), steps[1..], t, step);
      assert (steps + [step])[1..] == steps[1..] + [step];
    }
  }

  lemma {:induction false} LongerThanAll(used: set<RunId>) returns (n: nat)
    ensures forall id :: id in used ==> |id| < n
    decreases |used|
  {
    if used == {} {
      n := 0;
    } else {
      var id :| id in used;
      var m := LongerThanAll(used - {id});
      n := Max(m, |id| + 1);
      assert forall other :: other in used ==> other == id || other in used - {id};
    }
  }

  lemma UnusedName(s: Intake) returns (id: RunId)
    ensures NewId(s, Deliver(id))
  {
    var used := (set i | i in s.jobs) + s.tasks.Values;
    var n := LongerThanAll(used);
    id := Name(n);
    assert |id| == n;
    assert id !in used;
  }

  // ------------------------------------------------------------- a repeated id hides one of its tasks

  function Without(s: Intake, task: nat): Intake {
    s.(tasks := s.tasks - {task})
  }

  /** Task `y` runs, and nothing in flight stands for it; the others are counted properly. */
  predicate Hidden(s: Intake, y: nat) {
    && s.running && y in s.tasks && y < s.spawned
    && s.tasks[y] !in s.inFlight && s.tasks[y] !in s.jobs
    && OneTaskPerId(Without(s, y))
  }

  lemma HiddenCounts(s: Intake, y: nat)
    requires Hidden(s, y)
    ensures |s.tasks| == |s.inFlight| + 1
  {
    assert s.tasks == Without(s, y).tasks[y := s.tasks[y]];
  }

  lemma StaysHidden(limits: Limits, s: Intake, y: nat, step: Step)
    requires Hidden(s, y) && Enabled(s, step) && NewId(s, step) && step != TaskDone(y)
    ensures Hidden(Next(limits, s, step), y)
  {
    hide OneTaskPerId;
    var u := Without(s, y);
    assert NewId(u, step) by { FewerValues(s, y); }
    StepForgets(limits, s, y, step);
    StepKeepsOneTaskPerId(limits, u, step);
    hide Accepts;
    assert s.tasks[y] in s.tasks.Values;
  }

  lemma FewerValues(s: Intake, y: nat)
    requires y in s.tasks
    ensures forall v :: v in Without(s, y).tasks.Values ==> v in s.tasks.Values
  {
  }

  lemma StepForgets(limits: Limits, s: Intake, y: nat, step: Step)
    requires y in s.tasks && y < s.spawned && Enabled(s, step) && step != TaskDone(y)
    ensures Enabled(Without(s, y), step) && Next(limits, Without(s, y), step) == Without(Next(limits, s, step), y)
  {
    match step
    case TakeJob => DropAndPut(s.tasks, y, s.spawned, s.jobs[0]);
    case TaskDone(task) => DropBoth(s.tasks, y, task);
    case Deliver(id) =>
      hide Accepts;
      SameIntake(limits, s, y);
    case Start =>
  }

  lemma SameIntake(limits: Limits, s: Intake, y: nat)
    ensures Accepts(limits, Without(s, y)) == Accepts(limits, s)
  {
  }

  lemma DropAndPut(m: map<nat, RunId>, y: nat, k: nat, v: RunId)
    requires y != k
    ensures (m - {y})[k := v] == m[k := v] - {y}
  {
  }

  lemma DropBoth(m: map<nat, RunId>, y: nat, z: nat)
    requires y != z
    ensures (m - {y}) - {z} == (m - {z}) - {y} && (z in m ==> z in m - {y} && (m - {y})[z] == m[z])
  {
  }

  /** The jobs end with an id that is also an earlier job's or a task's; without it they are proper. */
  predicate Trailing(s: Intake, id: RunId) {
    && s.running && s.jobs != [] && s.jobs[|s.jobs| - 1] == id
    && OneTaskPerId(s.(jobs := s.jobs[..|s.jobs| - 1]))
    && (id in s.jobs[..|s.jobs| - 1] || id in s.tasks.Values)
  }

  lemma TakeKeepsTrailing(limits: Limits, s: Intake, id: RunId)
    requires Trailing(s, id) && |s.jobs| > 1
    ensures Trailing(Next(limits, s, TakeJob), id)
  {
    hide OneTaskPerId;
    var n := |s.jobs| - 1;
    var u, t := s.(jobs := s.jobs[..n]), Next(limits, s, TakeJob);
    TakeKeepsOneTaskPerId(limits, u);
    assert t.jobs[..|t.jobs| - 1] == u.jobs[1..];
    assert Next(limits, u, TakeJob) == t.(jobs := t.jobs[..|t.jobs| - 1]);
    assert t.tasks[s.spawned] == s.jobs[0];
    assert s.jobs[0] in t.tasks.Values;
    if id in s.tasks.Values {
      var task :| task in s.tasks && s.tasks[task] == id;
      SpawnedIsNew(s, u);
      assert t.tasks[task] == id;
    } else if id != s.jobs[0] {
      var i :| 0 <= i < n && s.jobs[..n][i] == id;
      assert u.jobs[1..][i - 1] == id;
    }
  }

  lemma SpawnedIsNew(s: Intake, u: Intake)
    requires OneTaskPerId(u) && u.tasks == s.tasks && u.spawned == s.spawned
    ensures s.spawned !in s.tasks
  {
  }

  /** With that id alone waiting: its second task is started, and the first one's callback pops the entry. */
  lemma SecondTaskHides(limits: Limits, s: Intake, id: RunId) returns (x: nat)
    requires Trailing(s, id) && |s.jobs| == 1
    ensures var t := Next(limits, s, TakeJob);
      && x in t.tasks && Hidden(Next(limits, t, TaskDone(x)), s.spawned) && Next(limits, t, TaskDone(x)).jobs == []
  {
    hide OneTaskPerId;
    var u := s.(jobs := []);
    assert s.jobs == [id] && s.jobs[..0] == [] && s.jobs[1..] == [];
    assert OneTaskPerId(u);
    SpawnedIsNew(s, u);
    x :| x in s.tasks && s.tasks[x] == id;
    TaskIsInFlight(u, x);
    DoneKeepsOneTaskPerId(limits, u, x);
    MoreSpawned(Next(limits, u, TaskDone(x)));
    PopsTheEntry(limits, s, u, id, x);
  }

  lemma TaskIsInFlight(u: Intake, x: nat)
    requires OneTaskPerId(u) && x in u.tasks
    ensures x < u.spawned && u.tasks[x] in u.inFlight && u.inFlight[u.tasks[x]] == x
  {
  }

  /** Starting the second task and finishing the first leaves what finishing the first alone leaves, and one task. */
  lemma PopsTheEntry(limits: Limits, s: Intake, u: Intake, id: RunId, x: nat)
    requires s.running && s.jobs == [id] && u == s.(jobs := []) && x in s.tasks && s.tasks[x] == id
    requires x < s.spawned && s.spawned !in s.tasks
    requires OneTaskPerId(Next(limits, u, TaskDone(x)).(spawned := s.spawned + 1))
    ensures var t := Next(limits, s, TakeJob);
      && x in t.tasks && Hidden(Next(limits, t, TaskDone(x)), s.spawned) && Next(limits, t, TaskDone(x)).jobs == []
  {
    hide OneTaskPerId;
    var t := Next(limits, s, TakeJob);
    assert s.jobs[1..] == [];
    var v := Next(limits, t, TaskDone(x));
    DropAndPut(s.tasks, x, s.spawned, id);
    assert v.tasks == (s.tasks - {x})[s.spawned := id];
    assert s.inFlight[id := s.spawned] - {id} == s.inFlight - {id};
    assert v.tasks - {s.spawned} == s.tasks - {x};
  }

  lemma MoreSpawned(s: Intake)
    requires OneTaskPerId(s)
    ensures OneTaskPerId(s.(spawned := s.spawned + 1))
  {
  }

  lemma UntilHidden(limits: Limits, s: Intake, id: RunId) returns (steps: seq<Step>, t: Intake, y: nat)
    requires Trailing(s, id)
    ensures LeadsTo(limits, s, steps, t) && Hidden(t, y) && t.jobs == []
  {
    hide LeadsTo, Hidden, OneTaskPerId;
    steps, t := [], s;
    assert LeadsTo(limits, s, [], s) by { NoSteps(limits, s); }
    while |t.jobs| > 1
      invariant LeadsTo(limits, s, steps, t) && Trailing(t, id)
      decreases |t.jobs|
    {
      TakeKeepsTrailing(limits, t, id);
      OneMoreStep(limits, s, steps, t, TakeJob);
      steps, t := steps + [TakeJob], Next(limits, t, TakeJob);
    }
    y := t.spawned;
    var x := SecondTaskHides(limits, t, id);
    OneMoreStep(limits, s, steps, t, TakeJob);
    steps, t := steps + [TakeJob], Next(limits, t, TakeJob);
    OneMoreStep(limits, s, steps, t, TaskDone(x));
    steps, t := steps + [TaskDone(x)], Next(limits, t, TaskDone(x));
  }

  lemma NoSteps(limits: Limits, s: Intake)
    ensures LeadsTo(limits, s, [], s)
  {
  }

  // ------------------------------------------------------------------- past the bound with new ids only

  lemma FinishOne(limits: Limits, s: Intake, y: nat) returns (z: nat)
    requires Hidden(s, y) && |s.inFlight| > 0
    ensures z in s.tasks && z != y && |Next(limits, s, TaskDone(z)).inFlight| == |s.inFlight| - 1
  {
    var id :| id in s.inFlight;
    z := s.inFlight[id];
    assert z in Without(s, y).tasks && s.tasks[z] == id;
    assert s.inFlight == (s.inFlight - {id})[id := z];
  }

  lemma StartOne(limits: Limits, s: Intake, y: nat, id: RunId)
    requires Hidden(s, y) && s.jobs == [] && NewId(s, Deliver(id)) && Accepts(limits, s)
    ensures var t := Next(limits, s, Deliver(id));
      && t.jobs == [id] && Hidden(Next(limits, t, TakeJob), y)
      && |Next(limits, t, TakeJob).inFlight| == |s.inFlight| + 1 && Next(limits, t, TakeJob).jobs == []
  {
    StaysHidden(limits, s, y, Deliver(id));
    var t := Next(limits, s, Deliver(id));
    StaysHidden(limits, t, y, TakeJob);
    NotInFlight(s, y, id);
    hide Hidden;
    assert t.jobs == [id] && t.jobs[1..] == [];
  }

  lemma NotInFlight(s: Intake, y: nat, id: RunId)
    requires Hidden(s, y) && NewId(s, Deliver(id))
    ensures id !in s.inFlight
  {
    forall x | x in s.inFlight ensures x in s.tasks.Values {
      assert s.inFlight[x] in Without(s, y).tasks;
      assert s.tasks[s.inFlight[x]] == x;
    }
  }

  /** With a task hidden, `declared` of them run and `queue` more wait. */
  lemma PastTheBound(limits: Limits, s: Intake, before: seq<Step>, from: Intake, y: nat)
    returns (steps: seq<Step>, t: Intake)
    requires limits.declared.Some? && limits.declared.value >= 1 && limits.queue >= 1
    requires LeadsTo(limits, s, before, from) && Hidden(from, y) && from.jobs == []
    ensures LeadsTo(limits, s, steps, t) && |t.tasks| + |t.jobs| == limits.declared.value + limits.queue
  {
    hide LeadsTo, Hidden, OneTaskPerId;
    steps, t := before, from;
    while |t.inFlight| > limits.declared.value - 1
      invariant LeadsTo(limits, s, steps, t) && Hidden(t, y) && t.jobs == []
      decreases |t.inFlight|
    {
      var z := FinishOne(limits, t, y);
      StaysHidden(limits, t, y, TaskDone(z));
      OneMoreStep(limits, s, steps, t, TaskDone(z));
      steps, t := steps + [TaskDone(z)], Next(limits, t, TaskDone(z));
    }
    while |t.inFlight| < limits.declared.value - 1
      invariant LeadsTo(limits, s, steps, t) && Hidden(t, y) && t.jobs == []
      invariant |t.inFlight| <= limits.declared.value - 1
      decreases limits.declared.value - |t.inFlight|
    {
      var id := UnusedName(t);
      HiddenRuns(t, y);
      StartOne(limits, t, y, id);
      OneMoreStep(limits, s, steps, t, Deliver(id));
      steps, t := steps + [Deliver(id)], Next(limits, t, Deliver(id));
      OneMoreStep(limits, s, steps, t, TakeJob);
      steps, t := steps + [TakeJob], Next(limits, t, TakeJob);
    }
    while |t.jobs| < limits.queue
      invariant LeadsTo(limits, s, steps, t) && Hidden(t, y) && |t.jobs| <= limits.queue
      invariant |t.inFlight| == limits.declared.value - 1
      decreases limits.queue - |t.jobs|
    {
      var id := UnusedName(t);
      HiddenRuns(t, y);
      StaysHidden(limits, t, y, Deliver(id));
      OneMoreStep(limits, s, steps, t, Deliver(id));
      steps, t := steps + [Deliver(id)], Next(limits, t, Deliver(id));
    }
    HiddenCounts(t, y);
  }

  lemma HiddenRuns(s: Intake, y: nat)
    requires Hidden(s, y)
    ensures s.running
  {
  }

  lemma RepeatedIsTrailing(limits: Limits, s: Intake, id: RunId)
    requires OneTaskPerId(s) && Accepts(limits, s) && (id in s.jobs || id in s.tasks.Values)
    ensures Trailing(Next(limits, s, Deliver(id)), id)
  {
    var t := Next(limits, s, Deliver(id));
    assert t.jobs[..|t.jobs| - 1] == s.jobs;
    assert t.(jobs := s.jobs) == s;
  }

  lemma {:induction false} FitsAlong(limits: Limits, s: Intake, steps: seq<Step>, t: Intake)
    requires limits.declared.Some? && limits.queue >= 1
    requires OneTaskPerId(s) && Fits(limits, s) && LeadsTo(limits, s, steps, t)
    ensures Fits(limits, t)
    decreases |steps|
  {
    if steps != [] {
      StepKeepsOneTaskPerId(limits, s, steps[0]);
      StepFits(limits, s, steps[0]);
      hide Next, OneTaskPerId, NewId, Enabled, Fits;
      FitsAlong(limits, Next(limits, s, steps[0]), steps[1..], t);
    }
  }

  /** In any state an execution with distinct ids reaches, an accepted delivery can lead to more than
      max_concurrent_runs - 1 + max_queued_runs runs, all later ids being new, if and only if the runtime still
      holds a run of its id. A run offered again while its first task is alive is such a delivery. */
  lemma RepeatedIdRunsMore(limits: Limits, states: seq<Intake>, taken: seq<Step>, id: RunId)
    requires limits.declared.Some? && limits.declared.value >= 1 && limits.queue >= 1
    requires Execution(limits, states, taken) && forall i :: 0 <= i < |taken| ==> NewId(states[i], taken[i])
    requires Accepts(limits, states[|taken|])
    ensures var s := states[|taken|];
      (exists steps, t :: LeadsTo(limits, Next(limits, s, Deliver(id)), steps, t) && !Fits(limits, t))
      <==> id in s.jobs || id in s.tasks.Values
  {
    var s := states[|taken|];
    IntakeBound(limits, states, taken, |taken|);
    assert |s.inFlight| == |s.tasks|;
    hide LeadsTo, OneTaskPerId, Execution;
    var delivered := Next(limits, s, Deliver(id));
    if id in s.jobs || id in s.tasks.Values {
      RepeatedIsTrailing(limits, s, id);
      var before, from, y := UntilHidden(limits, delivered, id);
      var steps, t := PastTheBound(limits, delivered, before, from, y);
      assert !Fits(limits, t);
    } else {
      StepKeepsOneTaskPerId(limits, s, Deliver(id));
      StepFits(limits, s, Deliver(id));
      forall steps, t | LeadsTo(limits, delivered, steps, t) ensures Fits(limits, t) {
        FitsAlong(limits, delivered, steps, t);
      }
    }
  }
}

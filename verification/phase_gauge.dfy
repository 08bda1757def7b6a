// The `managed_apps{phase}` gauges. An update changes the map of phases in one step
// and the gauges in later steps, with other updates in between.
module PhaseGauge {
  import opened Wrappers

  type Key = (string, string)
  type Phase = string

  datatype Op = Inc(phase: Phase) | Dec(phase: Phase)

  // The gauge operations that a call has still to do, in order.
  datatype Task = Task(key: Key, ops: seq<Op>)

  datatype World = World(phases: map<Key, Phase>, gauge: map<Phase, int>, tasks: seq<Task>)

  datatype Step =
    | Update(key: Key, phase: Phase)
    | Drop(key: Key)
    | Tick(task: nat)

  // A series that was never touched reads as 0.
  function Gauge(w: World, phase: Phase): int
  {
    if phase in w.gauge then w.gauge[phase] else 0
  }

  function Previous(w: World, key: Key): Option<Phase>
  {
    if key in w.phases then Some(w.phases[key]) else None
  }

  function UpdateOps(previous: Option<Phase>, phase: Phase): seq<Op>
  {
    match previous
    case None => [Inc(phase)]
    case Some(before) => if before == phase then [] else [Dec(before), Inc(phase)]
  }

  function DropOps(previous: Option<Phase>): seq<Op>
  {
    if previous.Some? then [Dec(previous.value)] else []
  }

  predicate Enabled(w: World, step: Step)
  {
    step.Tick? ==> step.task < |w.tasks| && w.tasks[step.task].ops != []
  }

  function Next(w: World, step: Step): World
    requires Enabled(w, step)
  {
    match step
    case Update(key, phase) =>
      w.(phases := w.phases[key := phase],
         tasks := w.tasks + [Task(key, UpdateOps(Previous(w, key), phase))])
    case Drop(key) =>
      w.(phases := w.phases - {key}, tasks := w.tasks + [Task(key, DropOps(Previous(w, key)))])
    case Tick(t) =>
      var ops := w.tasks[t].ops;
      var phase := ops[0].phase;
      w.(gauge := w.gauge[phase := Gauge(w, phase) + if ops[0].Inc? then 1 else -1],
         tasks := w.tasks[t := w.tasks[t].(ops := ops[1..])])
  }

  ghost predicate IsRun(run: seq<World>, steps: seq<Step>)
  {
    && |run| == |steps| + 1 && run[0] == World(map[], map[], [])
    && forall i :: 0 <= i < |steps| ==> Enabled(run[i], steps[i]) && Next(run[i], steps[i]) == run[i + 1]
  }

  // ---- The ledger ------------------------------------------------------------------------

  function InFlight(tasks: seq<Task>): multiset<Op>
  {
    if tasks == [] then multiset{} else multiset(tasks[0].ops) + InFlight(tasks[1..])
  }

  function InPhase(w: World, phase: Phase): set<Key>
  {
    set key | key in w.phases && w.phases[key] == phase
  }

  predicate Balanced(w: World, phase: Phase)
  {
    Gauge(w, phase) + InFlight(w.tasks)[Inc(phase)] - InFlight(w.tasks)[Dec(phase)] == |InPhase(w, phase)|
  }

  lemma {:induction false} InFlightOfConcat(tasks: seq<Task>, task: Task)
    ensures InFlight(tasks + [task]) == InFlight(tasks) + multiset(task.ops)
  {
    if tasks != [] {
      InFlightOfConcat(tasks[1..], task);
      assert (tasks + [task])[1..] == tasks[1..] + [task];
    }
  }

  lemma {:induction false} InFlightAfterTick(tasks: seq<Task>, t: nat)
    requires t < |tasks| && tasks[t].ops != []
    ensures InFlight(tasks) == InFlight(tasks[t := tasks[t].(ops := tasks[t].ops[1..])]) + multiset{tasks[t].ops[0]}
  {
    var tasks' := tasks[t := tasks[t].(ops := tasks[t].ops[1..])];
    assert tasks[t].ops == [tasks[t].ops[0]] + tasks[t].ops[1..];
    if t == 0 {
      assert tasks'[1..] == tasks[1..];
    } else {
      assert tasks'[1..] == tasks[1..][t - 1 := tasks'[t]];
      InFlightAfterTick(tasks[1..], t - 1);
    }
  }

  lemma UpdateKeepsBalance(w: World, key: Key, newPhase: Phase, phase: Phase)
    requires Balanced(w, phase)
    ensures Balanced(Next(w, Update(key, newPhase)), phase)
  {
    var w' := Next(w, Update(key, newPhase));
    var ops := UpdateOps(Previous(w, key), newPhase);
    InFlightOfConcat(w.tasks, Task(key, ops));
    InPhaseAfterUpdate(w, key, newPhase, phase);
    assert InFlight(w'.tasks)[Inc(phase)] == InFlight(w.tasks)[Inc(phase)] + multiset(ops)[Inc(phase)];
    assert InFlight(w'.tasks)[Dec(phase)] == InFlight(w.tasks)[Dec(phase)] + multiset(ops)[Dec(phase)];
  }

  lemma InPhaseAfterUpdate(w: World, key: Key, newPhase: Phase, phase: Phase)
    ensures
      var ops := multiset(UpdateOps(Previous(w, key), newPhase));
      |InPhase(Next(w, Update(key, newPhase)), phase)| == |InPhase(w, phase)| + ops[Inc(phase)] - ops[Dec(phase)]
  {
    var w' := Next(w, Update(key, newPhase));
    assert InPhase(w', phase) == if phase == newPhase then InPhase(w, phase) + {key} else InPhase(w, phase) - {key};
    CountOps(Previous(w, key), newPhase, phase);
  }

  lemma CountOps(previous: Option<Phase>, newPhase: Phase, phase: Phase)
    ensures
      var ops := multiset(UpdateOps(previous, newPhase));
      && ops[Inc(phase)] == (if phase == newPhase && previous != Some(phase) then 1 else 0)
      && ops[Dec(phase)] == (if phase != newPhase && previous == Some(phase) then 1 else 0)
  {
  }

  lemma DropKeepsBalance(w: World, key: Key, phase: Phase)
    requires Balanced(w, phase)
    ensures Balanced(Next(w, Drop(key)), phase)
  {
    var w' := Next(w, Drop(key));
    InFlightOfConcat(w.tasks, Task(key, DropOps(Previous(w, key))));
    assert InPhase(w', phase) == InPhase(w, phase) - {key};
  }

  lemma TickKeepsBalance(w: World, t: nat, phase: Phase)
    requires Balanced(w, phase) && Enabled(w, Tick(t))
    ensures Balanced(Next(w, Tick(t)), phase)
  {
    InFlightAfterTick(w.tasks, t);
    assert InPhase(Next(w, Tick(t)), phase) == InPhase(w, phase);
  }

  // In every interleaving each gauge, corrected by the operations in flight, is the
  // number of Projects in its phase.
  lemma {:induction false} GaugesBalance(run: seq<World>, steps: seq<Step>, k: nat, phase: Phase)
    requires IsRun(run, steps) && k < |run|
    ensures Balanced(run[k], phase)
  {
    if k == 0 {
      assert InPhase(run[0], phase) == {};
    } else {
      GaugesBalance(run, steps, k - 1, phase);
      assert Next(run[k - 1], steps[k - 1]) == run[k - 1 + 1];
      match steps[k - 1] {
        case Update(key, newPhase) => UpdateKeepsBalance(run[k - 1], key, newPhase, phase);
        case Drop(key) => DropKeepsBalance(run[k - 1], key, phase);
        case Tick(t) => TickKeepsBalance(run[k - 1], t, phase);
      }
    }
  }

  predicate Quiet(w: World)
  {
    forall t :: 0 <= t < |w.tasks| ==> w.tasks[t].ops == []
  }

  lemma {:induction false} QuietHasNothingInFlight(tasks: seq<Task>)
    requires forall t :: 0 <= t < |tasks| ==> tasks[t].ops == []
    ensures InFlight(tasks) == multiset{}
  {
    if tasks != [] {
      QuietHasNothingInFlight(tasks[1..]);
    }
  }

  lemma QuietGaugesAreExact(run: seq<World>, steps: seq<Step>, k: nat, phase: Phase)
    requires IsRun(run, steps) && k < |run| && Quiet(run[k])
    ensures Gauge(run[k], phase) == |InPhase(run[k], phase)| >= 0
  {
    GaugesBalance(run, steps, k, phase);
    QuietHasNothingInFlight(run[k].tasks);
  }

  // ---- Between updates --------------------------------------------------------------------

  // The controller runs one reconcile of an object at a time, so the calls for one
  // key do not overlap.
  predicate Serial(w: World, step: Step)
  {
    !step.Tick? ==> forall t :: 0 <= t < |w.tasks| && w.tasks[t].key == step.key ==> w.tasks[t].ops == []
  }

  ghost predicate IsSerialRun(run: seq<World>, steps: seq<Step>)
  {
    IsRun(run, steps) && forall i :: 0 <= i < |steps| ==> Serial(run[i], steps[i])
  }

  predicate Owes(w: World, key: Key, op: Op)
  {
    exists t :: 0 <= t < |w.tasks| && w.tasks[t].key == key && op in w.tasks[t].ops
  }

  // Shown under a phase are the Projects in it whose increment is done, and those
  // that left it and whose decrement is not.
  function Shown(w: World, phase: Phase): set<Key>
  {
    (set key | key in w.phases && w.phases[key] == phase && !Owes(w, key, Inc(phase)))
    + (set t | 0 <= t < |w.tasks| && Dec(phase) in w.tasks[t].ops :: w.tasks[t].key)
  }

  predicate Expected(w: World, task: Task)
  {
    || task.ops == []
    || (task.key in w.phases && task.ops == [Inc(w.phases[task.key])])
    || (task.key in w.phases && |task.ops| == 2 && task.ops[0].Dec? && task.ops[0].phase != w.phases[task.key]
        && task.ops[1] == Inc(w.phases[task.key]))
    || (task.key !in w.phases && |task.ops| == 1 && task.ops[0].Dec?)
  }

  // No two tasks of one key have operations left.
  predicate OneTaskPerKey(w: World)
  {
    forall s, t :: 0 <= s < t < |w.tasks| && w.tasks[s].key == w.tasks[t].key ==>
      w.tasks[s].ops == [] || w.tasks[t].ops == []
  }

  predicate Orderly(w: World)
  {
    && (forall t :: 0 <= t < |w.tasks| ==> Expected(w, w.tasks[t]))
    && OneTaskPerKey(w)
  }

  lemma StepKeepsOrder(w: World, step: Step)
    requires Orderly(w) && Enabled(w, step) && Serial(w, step)
    ensures Orderly(Next(w, step))
  {
    var w' := Next(w, step);
    forall t | 0 <= t < |w'.tasks| ensures Expected(w', w'.tasks[t]) {
      assert t < |w.tasks| ==> Expected(w, w.tasks[t]);
    }
  }

  predicate ShownAs(w: World, phase: Phase, key: Key)
  {
    (key in w.phases && w.phases[key] == phase && !Owes(w, key, Inc(phase))) || Owes(w, key, Dec(phase))
  }

  lemma ShownMeans(w: World, phase: Phase, key: Key)
    ensures key in Shown(w, phase) <==> ShownAs(w, phase, key)
  {
    if Owes(w, key, Dec(phase)) {
      var t :| 0 <= t < |w.tasks| && w.tasks[t].key == key && Dec(phase) in w.tasks[t].ops;
      assert w.tasks[t].key in Shown(w, phase);
    }
  }

  lemma OwesAfterMapStep(w: World, step: Step, key: Key, op: Op)
    requires !step.Tick? && Serial(w, step)
    ensures Owes(Next(w, step), key, op) <==>
      if key != step.key then Owes(w, key, op)
      else op in if step.Update? then UpdateOps(Previous(w, key), step.phase) else DropOps(Previous(w, key))
    ensures key == step.key ==> !Owes(w, key, op)
  {
    var w' := Next(w, step);
    if t :| 0 <= t < |w.tasks| && w.tasks[t].key == key && op in w.tasks[t].ops {
      assert w'.tasks[t] == w.tasks[t];
    }
    var last := |w.tasks|;
    assert w'.tasks[last].key == step.key;
  }

  lemma MapStepKeepsShown(w: World, step: Step, phase: Phase)
    requires !step.Tick? && Serial(w, step)
    ensures Shown(Next(w, step), phase) == Shown(w, phase)
  {
    forall key ensures key in Shown(Next(w, step), phase) <==> key in Shown(w, phase) {
      ShownMeans(w, phase, key);
      ShownMeans(Next(w, step), phase, key);
      OwesAfterMapStep(w, step, key, Inc(phase));
      OwesAfterMapStep(w, step, key, Dec(phase));
    }
  }

  lemma OwesAfterTick(w: World, t: nat, key: Key, op: Op)
    requires Orderly(w) && Enabled(w, Tick(t))
    ensures Owes(Next(w, Tick(t)), key, op) <==> Owes(w, key, op) && !(key == w.tasks[t].key && op == w.tasks[t].ops[0])
    ensures Owes(w, w.tasks[t].key, w.tasks[t].ops[0])
  {
    var w' := Next(w, Tick(t));
    var task := w.tasks[t];
    assert task.ops == [task.ops[0]] + task.ops[1..];
    if s :| 0 <= s < |w.tasks| && w.tasks[s].key == key && op in w.tasks[s].ops {
      assert s != t ==> w'.tasks[s] == w.tasks[s];
      assert s == t && op != task.ops[0] ==> op in w'.tasks[t].ops;
    }
    if s :| 0 <= s < |w'.tasks| && w'.tasks[s].key == key && op in w'.tasks[s].ops {
      assert s != t ==> w'.tasks[s] == w.tasks[s];
    }
  }

  lemma TickPaysDebt(w: World, t: nat, phase: Phase)
    requires Orderly(w) && Enabled(w, Tick(t))
    ensures
      var task := w.tasks[t];
      && (task.ops[0] == Inc(phase) ==> task.key in w.phases && w.phases[task.key] == phase && !Owes(w, task.key, Dec(phase)))
      && (task.ops[0] == Dec(phase) ==> !(task.key in w.phases && w.phases[task.key] == phase))
  {
    var task := w.tasks[t];
    assert Expected(w, task);
    if s :| 0 <= s < |w.tasks| && w.tasks[s].key == task.key && Dec(phase) in w.tasks[s].ops {
      assert w.tasks[s].ops != [];
    }
  }

  lemma ShownAfterTick(w: World, t: nat, phase: Phase, key: Key)
    requires Orderly(w) && Enabled(w, Tick(t))
    ensures
      var task := w.tasks[t];
      key in Shown(Next(w, Tick(t)), phase) <==>
        if key == task.key && task.ops[0].phase == phase then task.ops[0].Inc? else key in Shown(w, phase)
    ensures
      var task := w.tasks[t];
      task.ops[0].phase == phase ==> (task.key in Shown(w, phase) <==> task.ops[0].Dec?)
  {
    var task := w.tasks[t];
    TickPaysDebt(w, t, phase);
    ShownMeans(w, phase, key);
    ShownMeans(w, phase, task.key);
    ShownMeans(Next(w, Tick(t)), phase, key);
    OwesAfterTick(w, t, key, Inc(phase));
    OwesAfterTick(w, t, key, Dec(phase));
  }

  function Toggle(keys: set<Key>, key: Key, op: Op, phase: Phase): set<Key>
  {
    if op.phase != phase then keys else if op.Inc? then keys + {key} else keys - {key}
  }

  lemma ShownToggles(w: World, t: nat, phase: Phase)
    requires Orderly(w) && Enabled(w, Tick(t))
    ensures Shown(Next(w, Tick(t)), phase) == Toggle(Shown(w, phase), w.tasks[t].key, w.tasks[t].ops[0], phase)
  {
    var shown, shown' := Shown(w, phase), Shown(Next(w, Tick(t)), phase);
    var toggled := Toggle(shown, w.tasks[t].key, w.tasks[t].ops[0], phase);
    forall key ensures key in shown' <==> key in toggled {
      ShownAfterTick(w, t, phase, key);
    }
  }

  lemma TickKeepsCount(w: World, t: nat, phase: Phase)
    requires Orderly(w) && Enabled(w, Tick(t)) && Gauge(w, phase) == |Shown(w, phase)|
    ensures Gauge(Next(w, Tick(t)), phase) == |Shown(Next(w, Tick(t)), phase)|
  {
    ShownToggles(w, t, phase);
    ShownAfterTick(w, t, phase, w.tasks[t].key);
    var op := w.tasks[t].ops[0];
    assert Gauge(Next(w, Tick(t)), phase) == Gauge(w, phase) + if op.phase != phase then 0 else if op.Inc? then 1 else -1;
  }

  lemma {:induction false} SerialRunsStayOrderly(run: seq<World>, steps: seq<Step>, k: nat)
    requires IsSerialRun(run, steps) && k < |run|
    ensures Orderly(run[k])
  {
    if k > 0 {
      SerialRunsStayOrderly(run, steps, k - 1);
      SerialRunStep(run, steps, k - 1);
      StepKeepsOrder(run[k - 1], steps[k - 1]);
    }
  }

  lemma StepKeepsCount(w: World, step: Step, phase: Phase)
    requires Orderly(w) && Enabled(w, step) && Serial(w, step) && Gauge(w, phase) == |Shown(w, phase)|
    ensures Gauge(Next(w, step), phase) == |Shown(Next(w, step), phase)|
  {
    if step.Tick? {
      TickKeepsCount(w, step.task, phase);
    } else {
      MapStepKeepsShown(w, step, phase);
      assert Gauge(Next(w, step), phase) == Gauge(w, phase);
    }
  }

  // When the calls for one key do not overlap, no gauge is ever negative: it is the
  // number of Projects shown under its phase.
  lemma {:induction false} SerialGaugesAreCounts(run: seq<World>, steps: seq<Step>, k: nat, phase: Phase)
    requires IsSerialRun(run, steps) && k < |run|
    ensures Gauge(run[k], phase) == |Shown(run[k], phase)| >= 0
  {
    if k == 0 {
      NothingIsShown(run[0], phase);
    } else {
      SerialGaugesAreCounts(run, steps, k - 1, phase);
      SerialRunsStayOrderly(run, steps, k - 1);
      SerialRunStep(run, steps, k - 1);
      StepKeepsCount(run[k - 1], steps[k - 1], phase);
    }
  }

  lemma SerialRunStep(run: seq<World>, steps: seq<Step>, i: nat)
    requires IsSerialRun(run, steps) && i < |steps|
    ensures Enabled(run[i], steps[i]) && Serial(run[i], steps[i]) && Next(run[i], steps[i]) == run[i + 1]
  {
  }

  lemma NothingIsShown(w: World, phase: Phase)
    requires w == World(map[], map[], [])
    ensures Gauge(w, phase) == |Shown(w, phase)| == 0
  {
    assert Shown(w, phase) == {};
  }

  // Overlapping calls for one key can take a gauge below zero for a moment: the
  // removal decrements what the update has not incremented yet.
  lemma OverlapGoesNegative(key: Key, phase: Phase) returns (run: seq<World>, steps: seq<Step>)
    ensures IsRun(run, steps) && steps == [Update(key, phase), Drop(key), Tick(1)]
    ensures Gauge(run[3], phase) == -1
  {
    steps := [Update(key, phase), Drop(key), Tick(1)];
    var w0 := World(map[], map[], []);
    var w1 := Next(w0, steps[0]);
    var w2 := Next(w1, steps[1]);
    run := [w0, w1, w2, Next(w2, steps[2])];
  }

  // ---- The code ----------------------------------------------------------------------------

  class Metrics {
    var world: World
    ghost var run: seq<World>
    ghost var steps: seq<Step>

    ghost predicate Valid()
      reads this
    {
      IsRun(run, steps) && run[|run| - 1] == world
    }

    constructor ()
      ensures Valid()
    {
      world := World(map[], map[], []);
      run, steps := [World(map[], map[], [])], [];
    }

    method Take(step: Step)
      requires Valid() && Enabled(world, step)
      modifies this
      ensures Valid() && world == Next(old(world), step)
      ensures steps == old(steps) + [step]
    {
      world := Next(world, step);
      run, steps := run + [world], steps + [step];
    }

    lemma OthersLeaveTask(w: World, step: Step, task: nat)
      requires Enabled(w, step) && task < |w.tasks| && !(step.Tick? && step.task == task)
      ensures task < |Next(w, step).tasks| && Next(w, step).tasks[task] == w.tasks[task]
    {
    }

    // Steps of other calls; this one's task is theirs to leave alone.
    method Interfere(task: nat)
      requires Valid() && task < |world.tasks|
      modifies this
      ensures Valid() && old(steps) <= steps
      ensures task < |world.tasks| && world.tasks[task] == old(world.tasks[task])
    {
      var n: int := *;
      while n > 0
        invariant Valid() && old(steps) <= steps
        invariant task < |world.tasks| && world.tasks[task] == old(world.tasks[task])
      {
        n := n - 1;
        var step: Step := *;
        if Enabled(world, step) && !(step.Tick? && step.task == task) {
          OthersLeaveTask(world, step, task);
          Take(step);
        }
      }
    }

    // Decrements the bucket that the Project was in, if it changes, and then increments
    // the new one.
    method UpdateManagedAppsGauge(key: Key, newPhase: Phase) returns (task: nat)
      requires Valid()
      modifies this
      ensures Valid() && old(steps) + [Update(key, newPhase)] <= steps
      ensures task < |world.tasks| && world.tasks[task] == Task(key, [])
    {
      var previous := Previous(world, key);
      task := |world.tasks|;
      Take(Update(key, newPhase));
      var changed := previous != Some(newPhase);
      Interfere(task);
      if previous.Some? && changed {
        Take(Tick(task));
        Interfere(task);
      }
      if changed {
        Take(Tick(task));
      }
    }

    method DropManagedAppsGauge(key: Key) returns (task: nat)
      requires Valid()
      modifies this
      ensures Valid() && old(steps) + [Drop(key)] <= steps
      ensures task < |world.tasks| && world.tasks[task] == Task(key, [])
    {
      var previous := Previous(world, key);
      task := |world.tasks|;
      Take(Drop(key));
      if previous.Some? {
        Interfere(task);
        Take(Tick(task));
      }
    }
  }
}

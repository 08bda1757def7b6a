// `roll_redis_credential_consumers`: existing Deployments are moved onto the current
// credentials by one annotation of their Pod template. Others edit, replace and remove
// Deployments between any two calls.
module RedisConsumers {
  import opened Wrappers
  import R = RedisProvenance

  type Uid = R.Uid

  datatype OwnerReference = OwnerReference(uid: nat, controller: bool)

  // `workload` is everything else in the Deployment, seen as one value.
  datatype Deployment = Deployment(uid: nat, owners: seq<OwnerReference>, stamp: Option<Uid>, workload: string)

  type Deployments = map<string, Deployment>

  // The Project whose consumers are rolled, and the credentials they are rolled onto.
  datatype Roll = Roll(project: nat, uid: Uid)

  datatype Local =
    | Idle
    | AtGet(roll: Roll, names: seq<string>)                     // next: read names[0]
    | AtPatch(roll: Roll, names: seq<string>, read: Deployment) // next: stamp names[0]

  datatype World = World(items: Deployments, nextUid: nat, local: Local)

  datatype Step =
    | Begin(app: string, roll: Roll)
    | Get
    | Patch
    | Abort
    // everybody else
    | Put(name: string, owners: seq<OwnerReference>, stamp: Option<Uid>, workload: string)  // create or replace
    | Edit(name: string, owners: seq<OwnerReference>, stamp: Option<Uid>, workload: string)
    | Remove(name: string)

  predicate ControlledBy(d: Deployment, project: nat)
  {
    exists i :: 0 <= i < |d.owners| && d.owners[i] == OwnerReference(project, true)
  }

  function ConsumerNames(app: string): seq<string>
  {
    [app, app + "-worker", app + "-redis"]
  }

  predicate NeedsRoll(items: Deployments, name: string, roll: Roll)
  {
    name in items && ControlledBy(items[name], roll.project) && items[name].stamp != Some(roll.uid)
  }

  function Stamped(d: Deployment, uid: Uid): Deployment
  {
    d.(stamp := Some(uid))
  }

  predicate Enabled(w: World, step: Step)
  {
    match step
    case Begin(_, _) => w.local.Idle?
    case Get => w.local.AtGet?
    case Patch => w.local.AtPatch? && w.local.names != []
    case Abort => true
    case Put(_, _, _, _) => true
    case Edit(name, _, _, _) => name in w.items
    case Remove(_) => true
  }

  function Next(w: World, step: Step): World
    requires Enabled(w, step)
  {
    match step
    case Begin(app, roll) => w.(local := AtGet(roll, ConsumerNames(app)))
    case Get =>
      var roll, names := w.local.roll, w.local.names;
      w.(local :=
           if names == [] then Idle
           else if NeedsRoll(w.items, names[0], roll) then AtPatch(roll, names, w.items[names[0]])
           else AtGet(roll, names[1..]))
    case Patch =>
      // a merge patch names no UID, and never creates
      var name := w.local.names[0];
      if name in w.items
      then w.(items := w.items[name := Stamped(w.items[name], w.local.roll.uid)], local := AtGet(w.local.roll, w.local.names[1..]))
      else w.(local := Idle)
    case Abort => w.(local := Idle)
    case Put(name, owners, stamp, workload) =>
      w.(items := w.items[name := Deployment(w.nextUid, owners, stamp, workload)], nextUid := w.nextUid + 1)
    case Edit(name, owners, stamp, workload) =>
      w.(items := w.items[name := Deployment(w.items[name].uid, owners, stamp, workload)])
    case Remove(name) => w.(items := w.items - {name})
  }

  ghost predicate IsRun(run: seq<World>, steps: seq<Step>)
  {
    && |run| == |steps| + 1 && run[0].local.Idle?
    && forall i :: 0 <= i < |steps| ==> Enabled(run[i], steps[i]) && Next(run[i], steps[i]) == run[i + 1]
  }

  predicate ByOperator(step: Step)
  {
    step.Begin? || step.Get? || step.Patch? || step.Abort?
  }

  // ---- What the roll may change --------------------------------------------------------

  function Lookup(items: Deployments, name: string): Option<Deployment>
  {
    if name in items then Some(items[name]) else None
  }

  // No step of the operator creates or removes a Deployment or changes anything but a
  // stamp, in any run.
  lemma OperatorChangesOnlyStamps(w: World, step: Step, name: string)
    requires Enabled(w, step) && ByOperator(step)
    ensures
      var items, items' := w.items, Next(w, step).items;
      && items'.Keys == items.Keys
      && (name in items && items'[name] != items[name] ==>
            step.Patch? && w.local.names[0] == name && items'[name] == Stamped(items[name], w.local.roll.uid))
  {
  }

  // The read that a PATCH follows: the same name, then a controlled consumer with another
  // stamp, and only others in between.
  lemma {:induction false} PatchFollowsRead(run: seq<World>, steps: seq<Step>, i: nat) returns (j: nat)
    requires IsRun(run, steps) && i < |run| && run[i].local.AtPatch?
    ensures run[i].local.names != [] && j < i && steps[j].Get?
    ensures Lookup(run[j].items, run[i].local.names[0]) == Some(run[i].local.read)
    ensures NeedsRoll(run[j].items, run[i].local.names[0], run[i].local.roll)
    ensures forall m :: j < m < i ==> !ByOperator(steps[m])
    ensures run[j + 1].items == run[j].items
  {
    assert Next(run[i - 1], steps[i - 1]) == run[i - 1 + 1];
    if steps[i - 1].Get? {
      j := i - 1;
    } else {
      j := PatchFollowsRead(run, steps, i - 1);
      assert Next(run[j], steps[j]) == run[j + 1];
    }
  }

  predicate Foreign(w: World, name: string, project: nat)
  {
    name in w.items && !ControlledBy(w.items[name], project)
  }

  // Between the steps `j` and `i` the Deployment was replaced by, or changed into, an
  // uncontrolled one, and stayed so.
  ghost predicate Strayed(run: seq<World>, steps: seq<Step>, j: nat, i: nat, name: string, project: nat)
    requires |run| == |steps| + 1 && j < i <= |steps|
  {
    exists m :: j < m < i && TurnsForeign(run, steps, m, name, project)
      && forall l :: m < l <= i ==> Foreign(run[l], name, project)
  }

  predicate TurnsForeign(run: seq<World>, steps: seq<Step>, m: nat, name: string, project: nat)
    requires |run| == |steps| + 1 && m < |steps|
  {
    (steps[m].Put? || steps[m].Edit?) && steps[m].name == name
    && !Foreign(run[m], name, project) && Foreign(run[m + 1], name, project)
  }

  lemma {:induction false} ForeignTurned(run: seq<World>, steps: seq<Step>, j: nat, i: nat, name: string, project: nat)
    returns (m: nat)
    requires IsRun(run, steps) && j < i <= |steps|
    requires !Foreign(run[j + 1], name, project) && Foreign(run[i], name, project)
    requires forall m :: j < m < i ==> !ByOperator(steps[m])
    ensures j < m < i && TurnsForeign(run, steps, m, name, project)
    ensures forall l :: m < l <= i ==> Foreign(run[l], name, project)
  {
    assert Next(run[i - 1], steps[i - 1]) == run[i - 1 + 1];
    assert i - 1 > j;
    if Foreign(run[i - 1], name, project) {
      m := ForeignTurned(run, steps, j, i - 1, name, project);
    } else {
      m := i - 1;
    }
  }

  // A Deployment that the roll stamps is controlled by the Project if and only if it was
  // not replaced by, or changed into, an uncontrolled one between its read and its PATCH.
  lemma StampedIsControlledExactlyUnlessStrayed(run: seq<World>, steps: seq<Step>, i: nat) returns (j: nat)
    requires IsRun(run, steps) && i < |steps| && steps[i].Patch?
    requires run[i].local.AtPatch? && run[i].local.names != [] && run[i].local.names[0] in run[i].items
    ensures j < i && steps[j].Get?
    ensures
      var name, roll := run[i].local.names[0], run[i].local.roll;
      && NeedsRoll(run[j].items, name, roll)
      && run[i + 1].items == run[i].items[name := Stamped(run[i].items[name], roll.uid)]
      && (ControlledBy(run[i].items[name], roll.project) <==> !Strayed(run, steps, j, i, name, roll.project))
  {
    j := PatchFollowsRead(run, steps, i);
    assert Next(run[i], steps[i]) == run[i + 1];
    var name, project := run[i].local.names[0], run[i].local.roll.project;
    assert !Foreign(run[j + 1], name, project);
    if Foreign(run[i], name, project) {
      var m := ForeignTurned(run, steps, j, i, name, project);
      assert Strayed(run, steps, j, i, name, project);
    }
  }

  lemma Extend(run: seq<World>, steps: seq<Step>, step: Step)
    returns (longer: seq<World>, more: seq<Step>)
    requires IsRun(run, steps) && Enabled(run[|steps|], step)
    ensures IsRun(longer, more) && more == steps + [step] && longer == run + [Next(run[|steps|], step)]
  {
    longer, more := run + [Next(run[|steps|], step)], steps + [step];
  }

  // A consumer that is replaced after it was read is stamped, although the Project does
  // not control the replacement.
  lemma ReplacedDeploymentIsStamped(app: string, roll: Roll, workload: string)
    returns (run: seq<World>, steps: seq<Step>)
    ensures IsRun(run, steps) && |steps| == 4 && steps[3].Patch? && ByOperator(steps[3])
    ensures app in run[0].items && app in run[3].items && app in run[4].items
    ensures !ControlledBy(run[4].items[app], roll.project)
    ensures run[3].items[app].stamp == None && run[4].items[app].stamp == Some(roll.uid)
    ensures run[4].items[app].uid != run[0].items[app].uid
  {
    var own := Deployment(0, [OwnerReference(roll.project, true)], None, workload);
    assert ControlledBy(own, roll.project) by {
      assert own.owners[0] == OwnerReference(roll.project, true);
    }
    run, steps := [World(map[app := own], 1, Idle)], [];
    run, steps := Extend(run, steps, Begin(app, roll));
    run, steps := Extend(run, steps, Get);
    run, steps := Extend(run, steps, Put(app, [], None, workload));
    run, steps := Extend(run, steps, Patch);
  }

  // ---- The roll without others ---------------------------------------------------------

  // The state after rolling the Deployments in `names`.
  function Rolled(items: Deployments, names: seq<string>, roll: Roll): Deployments
  {
    map name | name in items ::
      if name in names && NeedsRoll(items, name, roll) then Stamped(items[name], roll.uid) else items[name]
  }

  // A Deployment of the application, its worker or its cache, with a controlling reference
  // to the Project.
  predicate Consumer(items: Deployments, name: string, app: string, roll: Roll)
  {
    && name in items && OwnerReference(roll.project, true) in items[name].owners
    && (name == app || name == app + "-worker" || name == app + "-redis")
  }

  // No Deployment appears or disappears, exactly the Project's own consumers are changed,
  // in nothing but their stamp, and all of them end up on the current credentials.
  lemma RollTouchesOnlyStamps(items: Deployments, app: string, roll: Roll)
    ensures
      var items' := Rolled(items, ConsumerNames(app), roll);
      && items'.Keys == items.Keys
      && (forall name :: name in items ==>
            items'[name] == if Consumer(items, name, app, roll) then items[name].(stamp := Some(roll.uid)) else items[name])
  {
    var items' := Rolled(items, ConsumerNames(app), roll);
    forall name | name in items
      ensures items'[name] == if Consumer(items, name, app, roll) then items[name].(stamp := Some(roll.uid)) else items[name]
    {
      assert name in ConsumerNames(app) <==> name == ConsumerNames(app)[0] || name == ConsumerNames(app)[1] || name == ConsumerNames(app)[2];
      assert ControlledBy(items[name], roll.project) <==> OwnerReference(roll.project, true) in items[name].owners;
    }
  }

  lemma RollIsIdempotent(items: Deployments, app: string, roll: Roll)
    ensures
      var once := Rolled(items, ConsumerNames(app), roll);
      Rolled(once, ConsumerNames(app), roll) == once
  {
    var once := Rolled(items, ConsumerNames(app), roll);
    forall name | name in items ensures ControlledBy(once[name], roll.project) == ControlledBy(items[name], roll.project) {
      assert once[name].owners == items[name].owners;
    }
  }

  // ---- The code --------------------------------------------------------------------------

  class DeploymentApi {
    var world: World
    // no other writer is active while the operator runs
    const quiet: bool
    ghost var run: seq<World>
    ghost var steps: seq<Step>

    ghost predicate Valid()
      reads this
    {
      IsRun(run, steps) && run[|run| - 1] == world
    }

    constructor (world: World, quiet: bool)
      requires world.local.Idle?
      ensures Valid() && this.world == world && this.quiet == quiet
    {
      this.world := world;
      this.quiet := quiet;
      run, steps := [world], [];
    }

    method Take(step: Step)
      requires Valid() && Enabled(world, step)
      modifies this
      ensures Valid() && steps == old(steps) + [step] && world == Next(old(world), step)
    {
      world := Next(world, step);
      run, steps := run + [world], steps + [step];
    }

    // Others may do anything, also replace a Deployment under the same name.
    method Interfere()
      requires Valid()
      modifies this
      ensures Valid() && old(steps) <= steps && world.local == old(world.local)
      ensures quiet ==> world == old(world)
    {
      var n: int := *;
      while n > 0 && !quiet
        invariant Valid() && old(steps) <= steps && world.local == old(world.local)
        invariant quiet ==> world == old(world)
        decreases n
      {
        n := n - 1;
        var step: Step := *;
        if Enabled(world, step) && !ByOperator(step) {
          Take(step);
        }
      }
    }

    method GetOpt(name: string) returns (r: Result<Option<Deployment>, ()>)
      requires Valid() && world.local.AtGet? && world.local.names != [] && world.local.names[0] == name
      modifies this
      ensures Valid() && old(steps) <= steps
      ensures quiet ==> world.items == old(world.items)
      ensures quiet && r.Success? ==> r.value == Lookup(old(world.items), name)
      ensures r.Failure? ==> world.local.Idle?
      ensures r.Success? ==>
        var was := old(world.local);
        world.local ==
          if r.value.Some? && ControlledBy(r.value.value, was.roll.project) && r.value.value.stamp != Some(was.roll.uid)
          then AtPatch(was.roll, was.names, r.value.value) else AtGet(was.roll, was.names[1..])
    {
      Interfere();
      var ok: bool := *;
      if ok {
        r := Success(Lookup(world.items, name));
        Take(Get);
      } else {
        r := Failure(());
        Take(Abort);
      }
    }

    // A failed call can have taken effect; an absent name is an error.
    method PatchStamp(name: string) returns (r: Result<(), ()>)
      requires Valid() && world.local.AtPatch? && world.local.names != [] && world.local.names[0] == name
      modifies this
      ensures Valid() && old(steps) <= steps
      ensures
        var was, items := old(world.local), old(world.items);
        quiet ==>
          && (world.items == items || (name in items && world.items == items[name := Stamped(items[name], was.roll.uid)]))
          && (r.Success? ==> name in items && world.items == items[name := Stamped(items[name], was.roll.uid)])
      ensures r.Failure? ==> world.local.Idle?
      ensures r.Success? ==> world.local == AtGet(old(world.local).roll, old(world.local).names[1..])
    {
      Interfere();
      var effective: bool := *;
      var answered: bool := *;
      if effective || answered {
        Take(Patch);
      }
      r := if answered && world.local.AtGet? then Success(()) else Failure(());
      if r.Failure? {
        Take(Abort);
      }
    }
  }

  lemma RolledOneMore(start: Deployments, names: seq<string>, i: nat, roll: Roll, here: Deployments)
    requires i < |names| && here == Rolled(start, names[..i], roll)
    ensures Rolled(start, names[..i + 1], roll) ==
      if NeedsRoll(here, names[i], roll) then here[names[i] := Stamped(here[names[i]], roll.uid)] else here
  {
    assert names[..i + 1] == names[..i] + [names[i]];
    forall name | name in start ensures ControlledBy(here[name], roll.project) == ControlledBy(start[name], roll.project) {
      assert here[name].owners == start[name].owners;
    }
  }

  // Every execution is a run of the roll. Without other writers a success computes
  // `Rolled`, and a failure has rolled the first consumers.
  method RollRedisCredentialConsumers(api: DeploymentApi, app: string, roll: Roll) returns (r: Result<(), ()>)
    requires api.Valid() && api.world.local.Idle?
    modifies api
    ensures api.Valid() && old(api.steps) < api.steps && api.world.local.Idle?
    ensures api.quiet && r.Success? ==> api.world.items == Rolled(old(api.world.items), ConsumerNames(app), roll)
    ensures api.quiet ==>
      exists k :: 0 <= k <= 3 && api.world.items == Rolled(old(api.world.items), ConsumerNames(app)[..k], roll)
  {
    var names := ConsumerNames(app);
    ghost var start := api.world.items;
    api.Take(Begin(app, roll));
    assert start == Rolled(start, names[..0], roll);
    for i := 0 to |names|
      invariant api.Valid() && old(api.steps) < api.steps
      invariant api.world.local == AtGet(roll, names[i..])
      invariant api.quiet ==> api.world.items == Rolled(start, names[..i], roll)
    {
      if api.quiet {
        RolledOneMore(start, names, i, roll, api.world.items);
      }
      var existing := api.GetOpt(names[i]);
      if existing.Failure? {
        return Failure(());
      }
      if existing.value.Some? {
        var d := existing.value.value;
        if ControlledBy(d, roll.project) && d.stamp != Some(roll.uid) {
          var patched := api.PatchStamp(names[i]);
          if patched.Failure? {
            return Failure(());
          }
        }
      }
    }
    assert names[..|names|] == names;
    api.Take(Get);
    r := Success(());
  }
}

// `apply` and `reconcile_source_build` in the form of their source. Each API call
// may be rejected, may take effect although its answer is lost, and is preceded
// by any actions of users, Job controllers and other actors. Every execution is a
// run of the protocol.
module ApplyReconcile {
  import opened Wrappers
  import opened Project
  import opened Conditions
  import opened ApplyProtocol
  import opened ApplySafety

  datatype BuildDecision =
    | NoBuild
    | Waiting
    | BuildSucceeded(build: Build, job: Job)
    | BuildFailed(build: Build)

  class ProjectApi {
    var world: World
    ghost var run: seq<World>

    ghost predicate Valid()
      reads this
    {
      IsRun(run) && run[|run| - 1] == world
    }

    constructor (world: World)
      requires Init(world)
      ensures Valid() && this.world == world
    {
      this.world := world;
      run := [world];
    }

    method Take(step: Step)
      requires Valid() && Enabled(world, step)
      modifies this
      ensures Valid() && run == old(run) + [world] && world == Next(old(world), step)
    {
      world := Next(world, step);
      ghost var before := run;
      run := run + [world];
      forall i | 0 <= i < |run| - 1 ensures Steps(run[i], run[i + 1]) {
        if i < |before| - 1 {
          assert Steps(before[i], before[i + 1]);
        } else {
          assert Enabled(old(world), step) && Next(old(world), step) == run[i + 1];
        }
      }
    }

    method Interfere()
      requires Valid()
      modifies this
      ensures Valid() && old(run) <= run && world.local == old(world.local) && world.rollouts == old(world.rollouts)
    {
      var n: int := *;
      while n > 0
        invariant Valid() && old(run) <= run && world.local == old(world.local) && world.rollouts == old(world.rollouts)
      {
        n := n - 1;
        var step: Step := *;
        if Enabled(world, step) && !step.Begin? && !step.Perform? && !step.Skip? && !step.Look? && !step.Gated? && !step.Stop?
        {
          Take(step);
        }
      }
    }

    // The next write of the reconcile; `rest` is what the protocol expects later.
    method Send(write: Write, ghost rest: seq<Write>) returns (ok: bool)
      requires Valid() && world.local.Busy? && world.local.todo == [write] + rest
      modifies this
      ensures Valid() && old(run) <= run
      ensures ok ==> world.local == old(world).local.(todo := rest)
      ensures ok ==> world.rollouts == old(world.rollouts) + (if write.ApplyDeployment? then [old(world).local.app] else [])
      ensures !ok ==> world.local == Idle
    {
      Interfere();
      assert world.local.todo[1..] == rest;
      ok := *;
      var effective: bool := *;
      if !Accepted(world, write) {
        ok := false;
      } else if ok || effective {
        Take(Perform);
      }
      if !ok {
        Take(Stop);
      }
    }

    // Deletes a build Job; a failure is logged and ignored.
    method DeleteJob(name: string, ghost rest: seq<Write>)
      requires Valid() && world.local.Busy? && world.local.todo == [Write.DeleteJob(name)] + rest
      modifies this
      ensures Valid() && old(run) <= run
      ensures world.local == old(world).local.(todo := rest)
    {
      Interfere();
      assert world.local.todo[1..] == rest;
      var effective: bool := *;
      Take(if effective then Perform else Skip);
    }

    method GetBuildJob(build: Build, isNew: bool) returns (r: Result<Option<Job>, ()>)
      requires Valid() && world.local.Busy? && world.local.todo == [] && world.local.then_ == ReadBuildJob(build, isNew)
      modifies this
      ensures Valid() && old(run) <= run
      ensures r.Failure? ==> world.local == Idle
      ensures r.Success? ==>
        var was := old(world).local;
        world.local == Busy(was.app, was.now, AfterLookup(was.app, build, isNew, r.value, was.now), Return)
    {
      Interfere();
      var ok: bool := *;
      if ok {
        r := Success(if build.jobName in world.jobs then Some(world.jobs[build.jobName]) else None);
        Take(Look);
      } else {
        Take(Stop);
        r := Failure(());
      }
    }

    // `reconcile_migration_job_resource` and the readiness that is observed later.
    method GetGate(ready: bool, children: seq<Condition>) returns (r: Result<Gate, ()>)
      requires Valid() && world.local.Busy? && world.local.todo == [] && world.local.then_.ReadMigration?
      requires ChildTypes(children)
      modifies this
      ensures Valid() && old(run) <= run && world.rollouts == old(world.rollouts)
      ensures r.Failure? ==> world.local == Idle
      ensures r.Success? ==>
        var was := old(world).local;
        world.local == Busy(was.app, was.now, AfterGate(was.app, r.value, ready, children, was.now), Return)
    {
      Interfere();
      var ok: bool := *;
      if ok {
        var rerun: bool := *;
        r := Success(MigrationGate(world, world.local.app, rerun));
        Take(Gated(rerun, ready, children));
      } else {
        Take(Stop);
        r := Failure(());
      }
    }
  }

  predicate AtReturn(local: Local, app: App, now: Time, todo: seq<Write>)
  {
    local == Busy(app, now, todo, Return)
  }

  method FollowJob(api: ProjectApi, app: App, build: Build, job: Job, now: Time)
    returns (r: Result<BuildDecision, ()>)
    requires api.Valid() && AtReturn(api.world.local, app, now, Decide(app, build, job, now))
    modifies api
    ensures api.Valid() && old(api.run) <= api.run
    ensures r.Failure? ==> api.world.local == Idle
    ensures r.Success? && !r.value.BuildSucceeded? ==> AtReturn(api.world.local, app, now, []) && !r.value.NoBuild?
    ensures r.Success? && r.value.BuildSucceeded? ==>
      AtReturn(api.world.local, app, now, RolloutOf(app, r.value.build, r.value.job, now))
  {
    match ClassifyJob(job)
    case JobRunning =>
      var running := Transition(app, build, BuildPhase.Running, "BuildRunning", now);
      var ok := api.Send(BuildPatch(app, running, Condition(Progressing, CTrue, "BuildRunning", Some(now)), now), []);
      r := if ok then Success(Waiting) else Failure(());
    case JobSucceeded =>
      r := Success(BuildSucceeded(Transition(app, build, Succeeded, "BuildSucceeded", now), job));
    case JobFailed(reason) =>
      var failed := Transition(app, build, Failed, reason, now);
      var ok := api.Send(BuildPatch(app, failed, Condition(Degraded, CTrue, "BuildFailed", Some(now)), now), []);
      r := if ok then Success(BuildFailed(failed)) else Failure(());
  }

  // A derived build: its Job is created if it is absent, the status names it, and
  // only then are the annotations cleared.
  method AcceptBuild(api: ProjectApi, app: App, build: Build, exists_: bool, now: Time, ghost rest: seq<Write>)
    returns (ok: bool)
    requires api.Valid()
    requires
      var accept := BuildPatch(app, build, Condition(Progressing, CTrue, "BuildPending", Some(now)), now);
      AtReturn(api.world.local, app, now,
               (if exists_ then [] else [CreateJob(build)]) + [accept, ClearAnnotations] + rest)
    modifies api
    ensures api.Valid() && old(api.run) <= api.run
    ensures !ok ==> api.world.local == Idle
    ensures ok ==> AtReturn(api.world.local, app, now, rest)
  {
    var accept := BuildPatch(app, build, Condition(Progressing, CTrue, "BuildPending", Some(now)), now);
    if !exists_ {
      assert api.world.local.todo == [CreateJob(build)] + ([accept, ClearAnnotations] + rest);
      var created := api.Send(CreateJob(build), [accept, ClearAnnotations] + rest);
      if !created {
        return false;
      }
    }
    assert api.world.local.todo == [accept] + ([ClearAnnotations] + rest);
    var accepted := api.Send(accept, [ClearAnnotations] + rest);
    if !accepted {
      return false;
    }
    ok := api.Send(ClearAnnotations, rest);
  }

  method FollowBuild(api: ProjectApi, app: App, build: Build, isNew: bool, now: Time) returns (r: Result<BuildDecision, ()>)
    requires api.Valid() && api.world.local == Busy(app, now, [], ReadBuildJob(build, isNew))
    modifies api
    ensures api.Valid() && old(api.run) <= api.run
    ensures r.Failure? ==> api.world.local == Idle
    ensures r.Success? && !r.value.BuildSucceeded? ==> AtReturn(api.world.local, app, now, []) && !r.value.NoBuild?
    ensures r.Success? && r.value.BuildSucceeded? ==>
      AtReturn(api.world.local, app, now, RolloutOf(app, r.value.build, r.value.job, now))
  {
    var live := api.GetBuildJob(build, isNew);
    if live.Failure? {
      return Failure(());
    }
    if live.value.None? && !isNew {
      var missing := Transition(app, build, Failed, "BuildJobMissing", now);
      var ok := api.Send(BuildPatch(app, missing, Condition(Degraded, CTrue, "BuildJobMissing", Some(now)), now), []);
      return if ok then Success(BuildFailed(missing)) else Failure(());
    }
    var job := if live.value.None? then NewJob(build) else live.value.value;
    if isNew {
      var ok := AcceptBuild(api, app, build, live.value.Some?, now, Decide(app, build, job, now));
      if !ok {
        return Failure(());
      }
    }
    assert AtReturn(api.world.local, app, now, Decide(app, build, job, now));
    r := FollowJob(api, app, build, job, now);
  }

  // The gate stays open (`NoBuild`) exactly when the snapshot's build is settled.
  method ReconcileSourceBuild(api: ProjectApi, app: App, now: Time) returns (r: Result<BuildDecision, ()>)
    requires api.Valid() && api.world.local == Start(app, now)
    requires app.spec.tenantValid && Annotation(app, PREVIEW_ACTION) != Some("delete")
    modifies api
    ensures api.Valid() && old(api.run) <= api.run
    ensures r.Failure? ==> api.world.local == Idle
    ensures r.Success? ==> (r.value.NoBuild? <==> BuildSettled(app))
    ensures r == Success(NoBuild) ==> api.world.local == Busy(app, now, [], ReadMigration)
    ensures r.Success? && (r.value.Waiting? || r.value.BuildFailed?) ==> AtReturn(api.world.local, app, now, [])
    ensures r.Success? && r.value.BuildSucceeded? ==>
      AtReturn(api.world.local, app, now, RolloutOf(app, r.value.build, r.value.job, now))
  {
    assert Derive(app, now).Some? == Derivable(app);
    var ignored := IgnoredRequest(app);
    if ignored {
      var cleared := api.Send(ClearAnnotations, []);
      if !cleared {
        return Failure(());
      }
    }
    var newBuild := if ignored then None else Derive(app, now);
    if newBuild.None? && BlockedByFailure(app) {
      return Success(BuildFailed(app.status.build.value));
    }
    if newBuild.None? && ActiveBuild(app).None? {
      return Success(NoBuild);
    }
    var build := if newBuild.Some? then newBuild.value else ActiveBuild(app).value;
    r := FollowBuild(api, app, build, newBuild.Some?, now);
  }

  method ReconcilePreviewDelete(api: ProjectApi, app: App, now: Time) returns (ok: bool)
    requires api.Valid() && AtReturn(api.world.local, app, now, PreviewDeletion(app, now))
    modifies api
    ensures api.Valid() && old(api.run) <= api.run
    ensures !ok ==> api.world.local == Idle
    ensures ok ==> AtReturn(api.world.local, app, now, [])
  {
    var pr := if Annotation(app, PR_NUMBER).Some? then Annotation(app, PR_NUMBER).value else "";
    var name := PreviewName(app.name, pr);
    ghost var tail := [DeletePreview(name), ClearAnnotations];
    if app.status.build.Some? && PreviewBuildMatches(app.status.build.value, pr, name) {
      var job := app.status.build.value.jobName;
      var clear := ClearBuild(PreviewDeletedConditions(app.status.conditions, now));
      if !Blank(job) {
        assert api.world.local.todo == [Write.DeleteJob(job)] + ([clear] + tail);
        api.DeleteJob(job, [clear] + tail);
      }
      assert api.world.local.todo == [clear] + tail;
      var cleared := api.Send(clear, tail);
      if !cleared {
        return false;
      }
    }
    assert api.world.local.todo == [DeletePreview(name)] + [ClearAnnotations];
    var deleted := api.Send(DeletePreview(name), [ClearAnnotations]);
    if !deleted {
      return false;
    }
    ok := api.Send(ClearAnnotations, []);
  }

  // The image goes into the spec, or the preview is applied, before the build is marked.
  // A success has done both.
  method ApplyRollout(api: ProjectApi, app: App, done: Build, job: Job, now: Time) returns (ok: bool)
    requires api.Valid() && AtReturn(api.world.local, app, now, RolloutOf(app, done, job, now))
    modifies api
    ensures api.Valid() && old(api.run) <= api.run
    ensures ok ==> AtReturn(api.world.local, app, now, []) && |RolloutOf(app, done, job, now)| == 2
    ensures !ok ==> api.world.local == Idle || (AtReturn(api.world.local, app, now, []) && RolloutOf(app, done, job, now) == [])
  {
    var mark := BuildPatch(app, done, Condition(Progressing, CFalse, "BuildSucceeded", Some(now)), now);
    match done.target {
      case Production =>
        ok := api.Send(SetImage(done, job), [mark]);
      case Preview =>
        if done.prNumber.None? || done.previewName.None? {
          return false;
        }
        ok := api.Send(ApplyPreview(done), [mark]);
    }
    if ok {
      ok := api.Send(mark, []);
    }
  }

  // Nothing is pending any more.
  predicate Finished(local: Local, app: App, now: Time)
  {
    AtReturn(local, app, now, [])
  }

  // One reconcile, from the snapshot it is given to its return. A success has performed
  // every write that its branch called for; whatever it does, every Deployment it rolls
  // out was allowed to be.
  method Apply(api: ProjectApi, app: App, now: Time, ready: bool, children: seq<Condition>) returns (ok: bool)
    requires api.Valid() && api.world.local.Idle? && app.name == api.world.app.name && ChildTypes(children)
    modifies api
    ensures api.Valid() && api.world.local.Idle?
    ensures old(api.run) + [Next(old(api.world), Begin(app, now))] <= api.run
    ensures ok ==> |api.run| >= 2 && Finished(api.run[|api.run| - 2].local, app, now)
    ensures forall i :: 0 <= i < |api.world.rollouts| ==> MayRollOut(api.world, api.world.rollouts[i])
  {
    api.Take(Begin(app, now));
    ok := ApplyStarted(api, app, now, ready, children);
    ghost var before := api.run;
    api.Take(Stop);
    assert api.run[|before| - 1] == before[|before| - 1];
    RunsAreSafe(api.run, |api.run| - 1);
  }

  method ApplyStarted(api: ProjectApi, app: App, now: Time, ready: bool, children: seq<Condition>) returns (ok: bool)
    requires api.Valid() && api.world.local == Start(app, now) && ChildTypes(children)
    modifies api
    ensures api.Valid() && old(api.run) <= api.run
    ensures ok ==> Finished(api.world.local, app, now)
  {
    if !app.spec.tenantValid {
      ok := api.Send(PatchTenantError(TenantConditions("TenantMismatch", now)), []);
      return false;
    }
    if Annotation(app, PREVIEW_ACTION) == Some("delete") {
      ok := ReconcilePreviewDelete(api, app, now);
      return;
    }
    var decision := ReconcileSourceBuild(api, app, now);
    if decision.Failure? {
      return false;
    }
    match decision.value {
      case Waiting => return true;
      case BuildFailed(_) => return true;
      case BuildSucceeded(done, job) =>
        ok := ApplyRollout(api, app, done, job, now);
        return;
      case NoBuild =>
    }
    var gate;
    ok, gate := RollOutBehindGate(api, app, now, ready, children);
  }

  // The migration gate, then the Deployment if the gate is open, then the final status.
  // A success has performed them all, and applied the Deployment exactly behind an open
  // gate.
  method RollOutBehindGate(api: ProjectApi, app: App, now: Time, ready: bool, children: seq<Condition>)
    returns (ok: bool, gate: Result<Gate, ()>)
    requires api.Valid() && api.world.local == Busy(app, now, [], ReadMigration) && ChildTypes(children)
    modifies api
    ensures api.Valid() && old(api.run) <= api.run
    ensures if ok then Finished(api.world.local, app, now) else api.world.local == Idle
    ensures ok ==> gate.Success?
    ensures ok ==> api.world.rollouts == old(api.world.rollouts) + (if Open(gate.value) then [app] else [])
  {
    gate := api.GetGate(ready, children);
    if gate.Failure? {
      return false, gate;
    }
    if !Open(gate.value) {
      ok := api.Send(StatusWrite(app, false, gate.value, [], now), []);
      return;
    }
    var status := StatusWrite(app, ready, gate.value, children, now);
    ok := api.Send(ApplyDeployment, [status]);
    if ok {
      ok := api.Send(status, []);
    }
  }

  predicate Open(gate: Gate)
  {
    gate != GateRunning && gate != GateFailed
  }
}

// What every run of `apply` keeps, from whatever snapshots its reconciles start.
module ApplySafety {
  import opened Wrappers
  import opened Project
  import opened Conditions
  import opened ApplyProtocol

  predicate Derivable(app: App)
  {
    Derive(app, 0).Some?
  }

  // No build to run, none in progress, none that failed.
  predicate BuildSettled(app: App)
  {
    !Derivable(app) && (app.status.build.Some? ==> app.status.build.value.phase == Succeeded)
  }

  predicate SchemaReady(w: World, app: App)
  {
    app.spec.database ==> Revision(app) in w.migrated
  }

  predicate MayRollOut(w: World, app: App)
  {
    app.spec.tenantValid && BuildSettled(app) && SchemaReady(w, app)
  }

  // The Job that was read had succeeded, and so has built its own destination.
  predicate ReadAsSucceeded(w: World, r: Rollout)
  {
    ClassifyJob(r.job) == JobSucceeded && Target(r.build.jobName, r.job.destination) in w.succeeded
  }

  predicate Justified(w: World, app: App, write: Write)
  {
    && (write.ApplyDeployment? ==> MayRollOut(w, app))
    && (write.SetImage? ==> ReadAsSucceeded(w, Rollout(write.build, write.job)))
  }

  predicate SafeHistory(w: World)
  {
    && (forall name :: name in w.jobs && ClassifyJob(w.jobs[name]) == JobSucceeded ==>
          Target(name, w.jobs[name].destination) in w.succeeded)
    && (forall revision :: revision in w.migrations && w.migrations[revision] == GateSucceeded ==> revision in w.migrated)
    && (forall revision :: revision in w.migrations ==> w.migrations[revision] != NotRequired)
    && (forall i :: 0 <= i < |w.rollouts| ==> MayRollOut(w, w.rollouts[i]))
    && (forall i :: 0 <= i < |w.images| ==> ReadAsSucceeded(w, w.images[i]))
  }

  predicate SafeLocal(w: World)
  {
    w.local.Busy? ==>
      && (forall i :: 0 <= i < |w.local.todo| ==> Justified(w, w.local.app, w.local.todo[i]))
      && (w.local.then_.ReadMigration? ==> w.local.app.spec.tenantValid && BuildSettled(w.local.app))
  }

  predicate Safe(w: World)
  {
    SafeHistory(w) && SafeLocal(w)
  }

  lemma EffectKeepsHistory(w: World, write: Write, app: App)
    requires SafeHistory(w) && Justified(w, app, write)
    ensures SafeHistory(Effect(w, write, app))
    ensures Effect(w, write, app).succeeded == w.succeeded && Effect(w, write, app).migrated == w.migrated
  {
    var w' := Effect(w, write, app);
    forall i | 0 <= i < |w'.rollouts| ensures MayRollOut(w', w'.rollouts[i]) {
      assert i < |w.rollouts| ==> MayRollOut(w, w.rollouts[i]);
    }
  }

  lemma PerformIsSafe(w: World)
    requires Safe(w) && Enabled(w, Perform)
    ensures Safe(Next(w, Perform))
  {
    var w' := Next(w, Perform);
    assert Justified(w, w.local.app, w.local.todo[0]);
    EffectKeepsHistory(w, w.local.todo[0], w.local.app);
    forall i | 0 <= i < |w'.local.todo| ensures Justified(w', w'.local.app, w'.local.todo[i]) {
      assert Justified(w, w.local.app, w.local.todo[i + 1]);
    }
  }

  lemma DecideSetsImageOnSuccess(app: App, build: Build, job: Job, now: Time)
    ensures forall write :: write in Decide(app, build, job, now) ==>
      && !write.ApplyDeployment?
      && (write.SetImage? ==>
            ClassifyJob(job) == JobSucceeded && write.job == job && write.build.jobName == build.jobName
            && write.build.image == build.image)
  {
  }

  lemma LookupSetsImageOnSuccess(app: App, build: Build, isNew: bool, found: Option<Job>, now: Time)
    ensures forall write :: write in AfterLookup(app, build, isNew, found, now) ==>
      && !write.ApplyDeployment?
      && (write.SetImage? ==>
            found.Some? && ClassifyJob(found.value) == JobSucceeded && write.job == found.value
            && write.build.jobName == build.jobName && write.build.image == build.image)
  {
    if found.Some? || isNew {
      DecideSetsImageOnSuccess(app, build, if found.None? then NewJob(build) else found.value, now);
    }
  }

  lemma LookIsSafe(w: World)
    requires Safe(w) && Enabled(w, Look)
    ensures SafeLocal(Next(w, Look))
  {
    var w' := Next(w, Look);
    var build := w.local.then_.build;
    var found := if build.jobName in w.jobs then Some(w.jobs[build.jobName]) else None;
    LookupSetsImageOnSuccess(w.local.app, build, w.local.then_.isNew, found, w.local.now);
    forall i | 0 <= i < |w'.local.todo| ensures Justified(w', w'.local.app, w'.local.todo[i]) {
      assert w'.local.todo[i] in AfterLookup(w.local.app, build, w.local.then_.isNew, found, w.local.now);
    }
  }

  lemma GatedIsSafe(w: World, rerun: bool, ready: bool, children: seq<Condition>)
    requires Safe(w) && Enabled(w, Gated(rerun, ready, children))
    ensures SafeLocal(Next(w, Gated(rerun, ready, children)))
  {
    var w' := Next(w, Gated(rerun, ready, children));
    var gate := MigrationGate(w, w.local.app, rerun);
    assert gate != GateRunning && gate != GateFailed ==> MayRollOut(w', w'.local.app);
    forall i | 0 <= i < |w'.local.todo| ensures Justified(w', w'.local.app, w'.local.todo[i]) {
    }
  }

  lemma BeginIsSafe(w: World, app: App, now: Time)
    requires Safe(w) && Enabled(w, Begin(app, now))
    ensures SafeLocal(Next(w, Begin(app, now)))
  {
    assert Derive(app, now).Some? == Derivable(app);
  }

  lemma HistoryIsSafe(w: World, step: Step)
    requires Safe(w) && Enabled(w, step) && !step.Perform?
    ensures SafeHistory(Next(w, step))
  {
    var w' := Next(w, step);
    assert w.succeeded <= w'.succeeded && w.migrated <= w'.migrated;
    forall i | 0 <= i < |w'.rollouts| ensures MayRollOut(w', w'.rollouts[i]) {
      assert MayRollOut(w, w.rollouts[i]);
    }
  }

  lemma SafeStep(w: World, step: Step)
    requires Safe(w) && Enabled(w, step)
    ensures Safe(Next(w, step))
  {
    match step
    case Perform => PerformIsSafe(w);
    case Look => LookIsSafe(w); HistoryIsSafe(w, step);
    case Begin(app, now) => BeginIsSafe(w, app, now); HistoryIsSafe(w, step);
    case Gated(rerun, ready, children) => GatedIsSafe(w, rerun, ready, children); HistoryIsSafe(w, step);
    case _ =>
      HistoryIsSafe(w, step);
      LocalStaysSafe(w, Next(w, step));
  }

  lemma LocalStaysSafe(w: World, w': World)
    requires SafeLocal(w) && w.succeeded <= w'.succeeded && w.migrated <= w'.migrated
    requires w'.local.Idle? || w'.local == w.local || (w.local.Busy? && w.local.todo != [] && w'.local == w.local.(todo := w.local.todo[1..]))
    ensures SafeLocal(w')
  {
    if w'.local.Busy? {
      forall i | 0 <= i < |w'.local.todo| ensures Justified(w', w'.local.app, w'.local.todo[i]) {
        assert w'.local.todo[i] in w.local.todo;
      }
    }
  }

  lemma {:induction false} RunsAreSafe(run: seq<World>, k: nat)
    requires IsRun(run) && k < |run|
    ensures Safe(run[k])
  {
    if k > 0 {
      RunsAreSafe(run, k - 1);
      assert Steps(run[k - 1], run[k]);
      var step :| Enabled(run[k - 1], step) && Next(run[k - 1], step) == run[k];
      SafeStep(run[k - 1], step);
    }
  }

  // The application Deployment is applied only for a snapshot without a derivable,
  // running or failed build and, with a database, after the migration Job of that
  // snapshot's revision has completed.
  lemma RolloutsWereGated(run: seq<World>, k: nat, i: nat)
    requires IsRun(run) && k < |run| && i < |run[k].rollouts|
    ensures
      var app := run[k].rollouts[i];
      && app.spec.tenantValid
      && Derive(app, 0) == None
      && ActiveBuild(app) == None && !BlockedByFailure(app)
      && (app.spec.database ==> Revision(app) in run[k].migrated)
  {
    RunsAreSafe(run, k);
  }

  // The operator points the spec only at images of builds whose Job it read as
  // succeeded, so the Job's destination has been built. The code does not compare it with
  // the image; the image itself was built by that Job exactly if they are equal.
  lemma ImagesWereBuilt(run: seq<World>, k: nat, i: nat)
    requires IsRun(run) && k < |run| && i < |run[k].images|
    ensures
      var r := run[k].images[i];
      && Target(r.build.jobName, r.job.destination) in run[k].succeeded
      && (r.job.destination == r.build.image ==> Target(r.build.jobName, r.build.image) in run[k].succeeded)
      && ReadAsSucceeded(run[k], r)
      && (BuiltBy(r.job, r.build.image) <==> r.job.destination == r.build.image)
  {
    RunsAreSafe(run, k);
  }

  predicate BuiltBy(job: Job, image: string)
  {
    ClassifyJob(job) == JobSucceeded && job.destination == image
  }

  // The gate as a decision: `apply` goes on to the migration gate exactly when the
  // tenancy is valid, no preview deletion is requested and the build is settled.
  lemma ContinueExactlyWhenSettled(app: App, now: Time)
    ensures
      Start(app, now).then_.ReadMigration? <==>
        && app.spec.tenantValid && Annotation(app, PREVIEW_ACTION) != Some("delete")
        && BuildSettled(app)
  {
    assert Derive(app, now).Some? == Derivable(app);
  }

  // ---- Where a mismatch comes from -------------------------------------------------------

  // Nobody but the operator creates build Jobs.
  ghost predicate OwnStep(w: World, w': World)
  {
    exists step: Step :: !step.JobAppears? && Enabled(w, step) && Next(w, step) == w'
  }

  predicate CreatedForImage(w: World, write: Write)
  {
    write.SetImage? ==> Target(write.build.jobName, write.job.destination) in w.createdJobs
  }

  predicate OwnJobs(w: World)
  {
    && (forall name :: name in w.jobs ==> Target(name, w.jobs[name].destination) in w.createdJobs)
    && (w.local.Busy? ==> forall i :: 0 <= i < |w.local.todo| ==> CreatedForImage(w, w.local.todo[i]))
    && (forall i :: 0 <= i < |w.images| ==>
          Target(w.images[i].build.jobName, w.images[i].job.destination) in w.createdJobs)
  }

  lemma GateSetsNoImage(app: App, gate: Gate, ready: bool, children: seq<Condition>, now: Time)
    ensures forall write :: write in AfterGate(app, gate, ready, children, now) ==> !write.SetImage?
  {
  }

  lemma StartSetsNoImage(app: App, now: Time)
    ensures Start(app, now).Busy? && forall write :: write in Start(app, now).todo ==> !write.SetImage?
  {
  }

  // The writes that a lookup, a gate or a new reconcile adds.
  lemma NewWritesAreOwn(w: World, step: Step)
    requires OwnJobs(w) && Enabled(w, step) && (step.Look? || step.Gated? || step.Begin?)
    ensures
      var w' := Next(w, step);
      && w' == w.(local := w'.local) && w'.local.Busy?
      && forall write :: write in w'.local.todo ==> CreatedForImage(w, write)
  {
    if step.Look? {
      var build := w.local.then_.build;
      var found := if build.jobName in w.jobs then Some(w.jobs[build.jobName]) else None;
      LookupSetsImageOnSuccess(w.local.app, build, w.local.then_.isNew, found, w.local.now);
    } else if step.Gated? {
      GateSetsNoImage(w.local.app, MigrationGate(w, w.local.app, step.rerun), step.ready, step.children, w.local.now);
    } else {
      StartSetsNoImage(step.app, step.now);
    }
  }

  lemma NewLocalKeepsOwnJobs(w: World, local: Local)
    requires OwnJobs(w) && local.Busy? && forall write :: write in local.todo ==> CreatedForImage(w, write)
    ensures OwnJobs(w.(local := local))
  {
    forall i | 0 <= i < |local.todo| ensures CreatedForImage(w, local.todo[i]) {
      assert local.todo[i] in local.todo;
    }
  }

  lemma EffectKeepsOwnHistory(w: World, write: Write, app: App)
    requires OwnJobs(w) && CreatedForImage(w, write)
    ensures
      var w' := Effect(w, write, app);
      && w.createdJobs <= w'.createdJobs && w'.local == w.local
      && (forall name :: name in w'.jobs ==> Target(name, w'.jobs[name].destination) in w'.createdJobs)
      && (forall i :: 0 <= i < |w'.images| ==>
            Target(w'.images[i].build.jobName, w'.images[i].job.destination) in w'.createdJobs)
  {
  }

  lemma PerformKeepsOwnJobs(w: World)
    requires OwnJobs(w) && Enabled(w, Perform)
    ensures OwnJobs(Next(w, Perform))
  {
    var w' := Next(w, Perform);
    assert CreatedForImage(w, w.local.todo[0]);
    EffectKeepsOwnHistory(w, w.local.todo[0], w.local.app);
    forall i | 0 <= i < |w'.local.todo| ensures CreatedForImage(w', w'.local.todo[i]) {
      assert CreatedForImage(w, w.local.todo[i + 1]);
    }
  }

  lemma StepKeepsOwnJobs(w: World, step: Step)
    requires OwnJobs(w) && Enabled(w, step) && !step.JobAppears?
    ensures OwnJobs(Next(w, step))
  {
    if step.Perform? {
      PerformKeepsOwnJobs(w);
    } else if step.Look? || step.Gated? || step.Begin? {
      NewWritesAreOwn(w, step);
      NewLocalKeepsOwnJobs(w, Next(w, step).local);
    } else {
      OtherStepKeepsOwnJobs(w, step);
    }
  }

  lemma OtherStepKeepsOwnJobs(w: World, step: Step)
    requires OwnJobs(w) && Enabled(w, step) && !step.JobAppears?
    requires !step.Perform? && !step.Look? && !step.Gated? && !step.Begin?
    ensures OwnJobs(Next(w, step))
  {
    var w' := Next(w, step);
    forall i | w'.local.Busy? && 0 <= i < |w'.local.todo| ensures CreatedForImage(w', w'.local.todo[i]) {
      assert w'.local.todo[i] in w.local.todo;
    }
  }

  // If only the operator creates build Jobs, an image that its Job did not build means
  // that this Job was created, under the same name, for another image.
  lemma {:induction false} OwnJobsBuildTheirTargets(run: seq<World>, k: nat)
    requires k < |run| && Init(run[0]) && forall i :: 0 <= i < k ==> OwnStep(run[i], run[i + 1])
    ensures OwnJobs(run[k])
  {
    if k > 0 {
      OwnJobsBuildTheirTargets(run, k - 1);
      assert OwnStep(run[k - 1], run[k]);
      var step: Step :| !step.JobAppears? && Enabled(run[k - 1], step) && Next(run[k - 1], step) == run[k];
      StepKeepsOwnJobs(run[k - 1], step);
    }
  }

  lemma OwnRunsAreRuns(run: seq<World>, k: nat)
    requires k < |run| && Init(run[0]) && forall i :: 0 <= i < k ==> OwnStep(run[i], run[i + 1])
    ensures IsRun(run[..k + 1])
  {
    forall i | 0 <= i < k ensures Steps(run[i], run[i + 1]) {
      assert OwnStep(run[i], run[i + 1]);
    }
  }

  // Then every image of which the Job's name stands for no other image was built.
  lemma UnsharedImagesWereBuilt(run: seq<World>, k: nat, i: nat)
    requires k < |run| && Init(run[0]) && forall i :: 0 <= i < k ==> OwnStep(run[i], run[i + 1])
    requires i < |run[k].images|
    ensures
      var r := run[k].images[i];
      && Target(r.build.jobName, r.job.destination) in run[k].createdJobs
      && ((forall target :: target in run[k].createdJobs && target.job == r.build.jobName ==> target.image == r.build.image) ==>
            Target(r.build.jobName, r.build.image) in run[k].succeeded)
  {
    OwnJobsBuildTheirTargets(run, k);
    OwnRunsAreRuns(run, k);
    RunsAreSafe(run[..k + 1], k);
    assert ReadAsSucceeded(run[k], run[k].images[i]);
  }

  // ---- Each build Job is created at most once while it exists -------------------------

  // Nobody deletes the build Job of this name.
  predicate Keeps(w: World, step: Step, name: string)
  {
    && step != JobGone(name)
    && (step.Perform? && w.local.Busy? && w.local.todo != [] ==> w.local.todo[0] != DeleteJob(name))
  }

  ghost predicate KeepingSteps(w: World, w': World, name: string)
  {
    exists step :: Enabled(w, step) && Keeps(w, step, name) && Next(w, step) == w'
  }

  // Between two worlds the Job was created at most once, and only if it was not there;
  // it stays.
  predicate CreatedOnce(w0: World, w: World, name: string)
  {
    && w0.createdJobs <= w.createdJobs
    && (name in w0.jobs ==> name in w.jobs)
    && var recent := w.createdJobs[|w0.createdJobs|..];
       && (forall i, j :: 0 <= i < j < |recent| ==> !(recent[i].job == name && recent[j].job == name))
       && (forall i :: 0 <= i < |recent| && recent[i].job == name ==> name in w.jobs && name !in w0.jobs)
  }

  lemma KeepingStepCreatesUnknown(w: World, step: Step, name: string)
    requires Enabled(w, step) && Keeps(w, step, name)
    ensures
      var w' := Next(w, step);
      && (name in w.jobs ==> name in w'.jobs)
      && (w'.createdJobs == w.createdJobs
          || (|w'.createdJobs| > 0
              && var target := w'.createdJobs[|w'.createdJobs| - 1];
              w'.createdJobs == w.createdJobs + [target] && target.job !in w.jobs && target.job in w'.jobs))
  {
  }

  lemma KeepingStepKeepsCreated(w0: World, w: World, w': World, name: string)
    requires CreatedOnce(w0, w, name) && KeepingSteps(w, w', name)
    ensures CreatedOnce(w0, w', name)
  {
    var step :| Enabled(w, step) && Keeps(w, step, name) && Next(w, step) == w';
    KeepingStepCreatesUnknown(w, step, name);
    var n := |w0.createdJobs|;
    if w'.createdJobs != w.createdJobs {
      assert w'.createdJobs[n..] == w.createdJobs[n..] + [w'.createdJobs[|w.createdJobs|]];
    }
  }

  // `from` is any point of a run, for example right after a deletion of the Job.
  lemma {:induction false} CreatedOnceWhileKept(run: seq<World>, from: nat, k: nat, name: string)
    requires from <= k < |run|
    requires forall i :: from <= i < k ==> KeepingSteps(run[i], run[i + 1], name)
    ensures CreatedOnce(run[from], run[k], name)
  {
    if from < k {
      CreatedOnceWhileKept(run, from, k - 1, name);
      KeepingStepKeepsCreated(run[from], run[k - 1], run[k], name);
    }
  }
}

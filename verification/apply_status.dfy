// The conditions and build records that runs of `apply` leave in the status, when
// reconciles start from the stored Project or from a stale version of it.
module ApplyStatus {
  import opened Wrappers
  import opened Project
  import opened Conditions
  import opened ApplyProtocol
  import opened ApplySafety

  // ---- Conditions ------------------------------------------------------------------

  predicate Settled(conditions: seq<Condition>)
  {
    Unique(conditions) && !Has(conditions, Progressing, CTrue)
  }

  predicate Sound(app: App, write: Write)
  {
    match write
    case PatchBuild(build, conditions) => Consistent(Some(build), conditions) && WellNamed(app, build)
    case ClearBuild(conditions) => Settled(conditions)
    case PatchStatus(kept, conditions, _) => Settled(conditions) && (kept.Some? ==> WellNamed(app, kept.value) && kept.value.phase == Succeeded)
    case PatchTenantError(conditions) => Settled(conditions)
    case SetImage(build, _) => WellNamed(app, build)
    case _ => true
  }

  predicate SoundApp(app: App)
  {
    && Consistent(app.status.build, app.status.conditions)
    && (app.status.build.Some? ==> WellNamed(app, app.status.build.value))
  }

  predicate SoundThen(app: App, then_: Then)
  {
    match then_
    case Return => true
    case ReadBuildJob(build, isNew) => WellNamed(app, build) && (isNew ==> build.phase == Pending)
    case ReadMigration => BuildSettled(app)
  }

  predicate SoundLocal(name: string, local: Local)
  {
    local.Busy? ==>
      && local.app.name == name
      && SoundApp(local.app)
      && (forall i :: 0 <= i < |local.todo| ==> Sound(local.app, local.todo[i]))
      && SoundThen(local.app, local.then_)
  }

  predicate Kept(w: World)
  {
    && SoundApp(w.app)
    && SoundLocal(w.app.name, w.local)
    && (forall i :: 0 <= i < |w.images| ==> WellNamed(w.app, w.images[i].build))
  }

  lemma DerivedIsWellNamed(app: App, now: Time)
    requires Derive(app, now).Some?
    ensures WellNamed(app, Derive(app, now).value) && Derive(app, now).value.phase == Pending
  {
  }

  lemma StartIsSound(app: App, now: Time)
    requires SoundApp(app)
    ensures SoundLocal(app.name, Start(app, now))
  {
    assert Derive(app, now).Some? == Derivable(app);
    if !app.spec.tenantValid {
      TenantErrorIsConsistent(None, "TenantMismatch", now);
    } else if Annotation(app, PREVIEW_ACTION) == Some("delete") {
      DeletionIsSound(app, now);
    } else if Derive(app, now).Some? {
      DerivedIsWellNamed(app, now);
    }
  }

  lemma DeletionIsSound(app: App, now: Time)
    requires SoundApp(app)
    ensures forall write :: write in PreviewDeletion(app, now) ==> Sound(app, write)
  {
    PreviewDeletedIsConsistent(app.status.conditions, now);
  }

  lemma BuildPatchIsSound(app: App, build: Build, condition: Condition, now: Time)
    requires SoundApp(app) && WellNamed(app, build) && Announces(condition, build.phase)
    ensures Sound(app, BuildPatch(app, build, condition, now))
  {
    BuildWriteIsConsistent(app.status.conditions, condition, build, now);
  }

  lemma TransitionKeepsNames(app: App, build: Build, phase: BuildPhase, reason: string, now: Time)
    ensures
      var build' := Transition(app, build, phase, reason, now);
      && build'.phase == phase && build'.trigger == build.trigger && build'.jobName == build.jobName
      && build'.image == build.image && build'.imageTag == build.imageTag && build'.target == build.target
      && (WellNamed(app, build) ==> WellNamed(app, build'))
  {
  }

  lemma DecideIsSound(app: App, build: Build, job: Job, now: Time)
    requires SoundApp(app) && WellNamed(app, build)
    ensures forall write :: write in Decide(app, build, job, now) ==> Sound(app, write)
  {
    match ClassifyJob(job)
    case JobRunning =>
      TransitionKeepsNames(app, build, BuildPhase.Running, "BuildRunning", now);
      BuildPatchIsSound(app, Transition(app, build, BuildPhase.Running, "BuildRunning", now),
                        Condition(Progressing, CTrue, "BuildRunning", Some(now)), now);
    case JobFailed(reason) =>
      TransitionKeepsNames(app, build, Failed, reason, now);
      BuildPatchIsSound(app, Transition(app, build, Failed, reason, now),
                        Condition(Degraded, CTrue, "BuildFailed", Some(now)), now);
    case JobSucceeded =>
      TransitionKeepsNames(app, build, Succeeded, "BuildSucceeded", now);
      BuildPatchIsSound(app, Transition(app, build, Succeeded, "BuildSucceeded", now),
                        Condition(Progressing, CFalse, "BuildSucceeded", Some(now)), now);
  }

  lemma LookupIsSound(app: App, build: Build, isNew: bool, found: Option<Job>, now: Time)
    requires SoundApp(app) && WellNamed(app, build) && (isNew ==> build.phase == Pending)
    ensures forall write :: write in AfterLookup(app, build, isNew, found, now) ==> Sound(app, write)
  {
    if found.None? && !isNew {
      TransitionKeepsNames(app, build, Failed, "BuildJobMissing", now);
      BuildPatchIsSound(app, Transition(app, build, Failed, "BuildJobMissing", now),
                        Condition(Degraded, CTrue, "BuildJobMissing", Some(now)), now);
    } else {
      DecideIsSound(app, build, if found.None? then NewJob(build) else found.value, now);
      if isNew {
        BuildPatchIsSound(app, build, Condition(Progressing, CTrue, "BuildPending", Some(now)), now);
      }
    }
  }

  lemma StatusWriteIsSound(app: App, ready: bool, gate: Gate, children: seq<Condition>, now: Time)
    requires SoundApp(app) && BuildSettled(app) && ChildTypes(children)
    ensures Settled(StatusConditions(app.status.conditions, ready, gate, children, now))
  {
    StatusWriteConditions(app.status.conditions, ready, gate, children, now);
  }

  lemma GateIsSound(app: App, gate: Gate, ready: bool, children: seq<Condition>, now: Time)
    requires SoundApp(app) && BuildSettled(app) && ChildTypes(children)
    ensures forall write :: write in AfterGate(app, gate, ready, children, now) ==> Sound(app, write)
  {
    StatusWriteIsSound(app, false, gate, [], now);
    StatusWriteIsSound(app, ready, gate, children, now);
  }

  lemma EffectKeepsApp(w: World)
    requires Kept(w) && Enabled(w, Perform)
    ensures SoundApp(Next(w, Perform).app)
  {
    var write := w.local.todo[0];
    assert Sound(w.local.app, write);
  }

  lemma PerformKeeps(w: World)
    requires Kept(w) && Enabled(w, Perform)
    ensures Kept(Next(w, Perform))
  {
    EffectKeepsApp(w);
    var w' := Next(w, Perform);
    assert Sound(w.local.app, w.local.todo[0]);
    assert forall i :: 0 <= i < |w'.local.todo| ==> w'.local.todo[i] == w.local.todo[i + 1];
  }

  lemma ReadKeeps(w: World, step: Step)
    requires Kept(w) && Enabled(w, step) && (step.Look? || step.Gated?)
    ensures Kept(Next(w, step))
  {
    var w' := Next(w, step);
    if step.Look? {
      var build := w.local.then_.build;
      var found := if build.jobName in w.jobs then Some(w.jobs[build.jobName]) else None;
      LookupIsSound(w.local.app, build, w.local.then_.isNew, found, w.local.now);
    } else {
      GateIsSound(w.local.app, MigrationGate(w, w.local.app, step.rerun), step.ready, step.children, w.local.now);
    }
    forall i | 0 <= i < |w'.local.todo| ensures Sound(w'.local.app, w'.local.todo[i]) {
      assert w'.local.todo[i] in w'.local.todo;
    }
  }

  lemma StepKeeps(w: World, step: Step)
    requires Kept(w) && Enabled(w, step) && (step.Begin? ==> SoundApp(step.app))
    ensures Kept(Next(w, step))
  {
    match step
    case Begin(app, now) => StartIsSound(app, now);
    case Perform => PerformKeeps(w);
    case Look => ReadKeeps(w, step);
    case Gated(_, _, _) => ReadKeeps(w, step);
    case Skip =>
      var w' := Next(w, step);
      assert forall i :: 0 <= i < |w'.local.todo| ==> w'.local.todo[i] == w.local.todo[i + 1];
    case _ =>
  }

  lemma {:induction false} CachedRunsKeep(run: seq<World>, k: nat)
    requires IsCachedRun(run) && k < |run|
    ensures forall j :: 0 <= j <= k ==> Kept(run[j])
  {
    if k > 0 {
      CachedRunsKeep(run, k - 1);
      assert CachedSteps(run, k - 1);
      var step :|
        && Enabled(run[k - 1], step) && Next(run[k - 1], step) == run[k]
        && (step.Begin? ==> exists j :: 0 <= j <= k - 1 && run[j].app == step.app);
      StepKeeps(run[k - 1], step);
    }
  }

  // At most one condition per type; Progressing only while the stored build is
  // pending or running; never Progressing and Degraded together. Between any two
  // writes of any reconcile, whatever it was interrupted by.
  lemma ConditionsStayConsistent(run: seq<World>, k: nat)
    requires IsCachedRun(run) && k < |run|
    ensures
      var status := run[k].app.status;
      && Unique(status.conditions)
      && (Has(status.conditions, Progressing, CTrue) ==> status.build.Some? && Active(status.build.value.phase))
      && !(Has(status.conditions, Progressing, CTrue) && Has(status.conditions, Degraded, CTrue))
  {
    CachedRunsKeep(run, k);
  }

  // Every image the operator put into the spec carries the tag that its succeeded
  // build Job is named after. A Job that was created for a tag of the same name carries
  // that tag itself, so it built the image exactly if it was created for this one.
  lemma ImagesMatchTheirJobs(run: seq<World>, k: nat, i: nat)
    requires IsCachedRun(run) && k < |run| && i < |run[k].images|
    ensures
      var r := run[k].images[i];
      && Target(r.build.jobName, r.job.destination) in run[k].succeeded
      && WellNamed(run[k].app, r.build)
      && (BuiltBy(r.job, r.build.image) <==> r.job.destination == r.build.image)
      && (forall tag, repository: string :: r.job.destination == repository + (":" + tag) && r.build.image == repository + (":" + r.build.imageTag) ==>
            (BuiltBy(r.job, r.build.image) <==> tag == r.build.imageTag))
  {
    CachedRunsKeep(run, k);
    assert IsRun(run) by {
      forall j | 0 <= j < |run| - 1 ensures Steps(run[j], run[j + 1]) {
        assert CachedSteps(run, j);
      }
    }
    ImagesWereBuilt(run, k, i);
    var r := run[k].images[i];
    forall tag, repository: string | r.job.destination == repository + (":" + tag) && r.build.image == repository + (":" + r.build.imageTag)
      ensures r.job.destination == r.build.image <==> tag == r.build.imageTag
    {
      PrependIsInjective(repository + ":", tag, r.build.imageTag);
      assert repository + (":" + tag) == repository + ":" + tag;
      assert repository + (":" + r.build.imageTag) == repository + ":" + r.build.imageTag;
    }
  }
}

// What an uninterrupted reconcile of a trigger does, and the run in which it puts an
// image into the spec that nothing built.
module ApplyAccept {
  import opened Wrappers
  import opened Project
  import opened Conditions
  import opened ApplyProtocol
  import opened ApplySafety
  import opened ApplyTriggers

  function PerformAll(w: World): (w': World)
    requires w.local.Busy?
    ensures w'.local.Busy?
    decreases |w.local.todo|
  {
    if w.local.todo == [] || !Enabled(w, Perform) then w else PerformAll(Next(w, Perform))
  }

  lemma PerformFirst(w: World, first: Write, rest: seq<Write>)
    requires w.local.Busy? && w.local.todo == [first] + rest && ApplyProtocol.Accepted(w, first)
    ensures PerformAll(w) == PerformAll(Effect(w, first, w.local.app).(local := w.local.(todo := rest)))
  {
    assert w.local.todo[1..] == rest;
  }

  // A snapshot that a reconcile turns into a build.
  predicate Buildable(w: World, app: App)
  {
    w.local.Idle? && app.name == w.app.name && Derivable(app) && app.spec.tenantValid
    && Annotation(app, PREVIEW_ACTION) != Some("delete")
  }

  function Reconciled(w: World, app: App, now: Time): (w': World)
    requires Buildable(w, app)
    ensures w'.local.Busy?
  {
    assert Derive(app, now).Some?;
    PerformAll(Next(Next(w, Begin(app, now)), Look))
  }

  // The Job that the reconcile of a new build follows.
  function Followed(w: World, build: Build): Job
  {
    if build.jobName in w.jobs then w.jobs[build.jobName] else NewJob(build)
  }

  function PhaseFor(state: JobState): BuildPhase
  {
    match state
    case JobRunning => BuildPhase.Running
    case JobFailed(_) => Failed
    case JobSucceeded => Succeeded
  }

  function Reason(state: JobState): string
  {
    match state
    case JobRunning => "BuildRunning"
    case JobFailed(reason) => reason
    case JobSucceeded => "BuildSucceeded"
  }

  predicate SameExcept(w': World, w: World, image: string, images: seq<Rollout>)
  {
    && w'.app.annotations == w.app.annotations && w'.app.name == w.app.name
    && w'.app.spec == w.app.spec.(image := image)
    && w'.jobs == w.jobs && w'.createdJobs == w.createdJobs && w'.succeeded == w.succeeded
    && w'.images == w.images + images
  }

  // The phase of the Project after a build write.
  function PhaseAfter(phase: BuildPhase, before: Option<Phase>): Option<Phase>
  {
    match phase
    case Pending => Some(Deploying)
    case Running => Some(Deploying)
    case Failed => Some(PhaseDegraded)
    case Succeeded => before
  }

  lemma LastPatch(w: World, build: Build, conditions: seq<Condition>)
    requires w.local.Busy? && w.local.todo == [PatchBuild(build, conditions)]
    ensures
      var w' := PerformAll(w);
      && w'.local == w.local.(todo := []) && w'.app.status.build == Some(MergeBuild(w.app.status.build, build))
      && w'.app.status.phase == PhaseAfter(build.phase, w.app.status.phase)
      && SameExcept(w', w, w.app.spec.image, []) && w'.previews == w.previews
  {
    PerformFirst(w, PatchBuild(build, conditions), []);
  }

  lemma RolloutThenPatch(w: World, first: Write, build: Build, job: Job, conditions: seq<Condition>)
    requires w.local.Busy? && w.local.todo == [first, PatchBuild(build, conditions)]
    requires first == SetImage(build, job) || first == ApplyPreview(build)
    ensures
      var w' := PerformAll(w);
      && w'.local == w.local.(todo := []) && w'.app.status.build == Some(MergeBuild(w.app.status.build, build))
      && w'.app.status.phase == PhaseAfter(build.phase, w.app.status.phase)
      && SameExcept(w', w, if first.SetImage? then build.image else w.app.spec.image,
                    if first.SetImage? then [Rollout(build, job)] else [])
      && w'.previews == w.previews + (if first.SetImage? then [] else [build])
  {
    PerformFirst(w, first, [PatchBuild(build, conditions)]);
    LastPatch(Effect(w, first, w.local.app).(local := w.local.(todo := [PatchBuild(build, conditions)])), build, conditions);
  }

  predicate RollsOut(build: Build, job: Job)
  {
    ClassifyJob(job) == JobSucceeded && build.target == Production
  }

  predicate ShowsPreview(build: Build, job: Job)
  {
    ClassifyJob(job) == JobSucceeded && build.target == Preview
  }

  function Done(app: App, build: Build, job: Job, now: Time): Build
  {
    Transition(app, build, PhaseFor(ClassifyJob(job)), Reason(ClassifyJob(job)), now)
  }

  lemma DecisionIsRecorded(w: World, app: App, build: Build, job: Job, now: Time)
    requires w.local == Busy(app, now, Decide(app, build, job, now), Return)
    requires build.target == Preview ==> build.prNumber.Some? && build.previewName.Some?
    ensures
      var w' := PerformAll(w);
      && w'.local == w.local.(todo := [])
      && Recorded(w'.app, build.trigger, build.jobName)
      && w'.app.status.build.value.phase == PhaseFor(ClassifyJob(job))
      && w'.app.status.phase == PhaseAfter(PhaseFor(ClassifyJob(job)), w.app.status.phase)
      && SameExcept(w', w, if RollsOut(build, job) then build.image else w.app.spec.image,
                    if RollsOut(build, job) then [Rollout(Done(app, build, job, now), job)] else [])
      && w'.previews == w.previews + (if ShowsPreview(build, job) then [Done(app, build, job, now)] else [])
  {
    var todo := Decide(app, build, job, now);
    var moved := Done(app, build, job, now);
    if ClassifyJob(job) == JobSucceeded {
      RolloutThenPatch(w, todo[0], moved, job, todo[1].conditions);
    } else {
      LastPatch(w, moved, todo[0].conditions);
    }
  }

  // Acceptance in the status, then the annotations are cleared.
  lemma AcceptanceIsRecorded(w: World, build: Build, conditions: seq<Condition>, rest: seq<Write>) returns (v: World)
    requires w.local.Busy? && w.local.todo == [PatchBuild(build, conditions)] + ([ClearAnnotations] + rest)
    ensures v.local == w.local.(todo := rest)
    ensures PerformAll(w) == PerformAll(v)
    ensures Annotation(v.app, BUILD_TRIGGER).None? && v.app.name == w.app.name && v.app.spec == w.app.spec
    ensures v.app.status.phase == PhaseAfter(build.phase, w.app.status.phase)
    ensures v.jobs == w.jobs && v.createdJobs == w.createdJobs && v.succeeded == w.succeeded && v.images == w.images
    ensures v.previews == w.previews
  {
    PerformFirst(w, PatchBuild(build, conditions), [ClearAnnotations] + rest);
    var u := Effect(w, PatchBuild(build, conditions), w.local.app).(local := w.local.(todo := [ClearAnnotations] + rest));
    PerformFirst(u, ClearAnnotations, rest);
    v := Effect(u, ClearAnnotations, u.local.app).(local := u.local.(todo := rest));
  }

  lemma CreationIsRecorded(w: World, build: Build, rest: seq<Write>) returns (v: World)
    requires w.local.Busy? && w.local.todo == [CreateJob(build)] + rest && build.jobName !in w.jobs
    ensures v == Effect(w, CreateJob(build), w.local.app).(local := w.local.(todo := rest))
    ensures PerformAll(w) == PerformAll(v)
  {
    PerformFirst(w, CreateJob(build), rest);
    v := Effect(w, CreateJob(build), w.local.app).(local := w.local.(todo := rest));
  }

  // What a reconcile of a derived build has to write once the Job is looked up.
  lemma DerivedBuildIsFollowed(w: World, app: App, now: Time)
    requires Buildable(w, app)
    ensures
      var build := Derive(app, now).value;
      var found := if build.jobName in w.jobs then Some(w.jobs[build.jobName]) else None;
      && Enabled(Next(w, Begin(app, now)), Look)
      && Next(Next(w, Begin(app, now)), Look) == w.(local := Busy(app, now, AfterLookup(app, build, true, found, now), Return))
  {
  }

  function JobsWith(w: World, build: Build): map<string, Job>
  {
    w.jobs[build.jobName := Followed(w, build)]
  }

  function CreatedWith(w: World, build: Build): seq<Target>
  {
    if build.jobName in w.jobs then w.createdJobs else w.createdJobs + [Target(build.jobName, build.image)]
  }

  // The reconcile of a derived build, up to the decision.
  lemma NewBuildIsRecorded(w: World, app: App, now: Time) returns (v: World)
    requires Buildable(w, app)
    ensures
      var build := Derive(app, now).value;
      && v.local == Busy(app, now, Decide(app, build, Followed(w, build), now), Return)
      && Reconciled(w, app, now) == PerformAll(v)
      && Annotation(v.app, BUILD_TRIGGER).None? && v.app.spec == w.app.spec && v.app.name == w.app.name
      && v.jobs == JobsWith(w, build) && v.createdJobs == CreatedWith(w, build)
      && v.succeeded == w.succeeded && v.images == w.images && v.previews == w.previews
      && v.app.status.phase == Some(Deploying)
  {
    var build := Derive(app, now).value;
    DerivedBuildIsFollowed(w, app, now);
    var found := if build.jobName in w.jobs then Some(w.jobs[build.jobName]) else None;
    NewBuildWrites(app, build, found, now);
    var rest := [ClearAnnotations] + Decide(app, build, Followed(w, build), now);
    var v0 := Next(Next(w, Begin(app, now)), Look);
    if build.jobName !in w.jobs {
      v0 := CreationIsRecorded(v0, build, [Acceptance(app, build, now)] + rest);
    } else {
      assert w.jobs == JobsWith(w, build);
    }
    v := AcceptanceIsRecorded(v0, build, Acceptance(app, build, now).conditions, Decide(app, build, Followed(w, build), now));
  }

  // Afterwards the request is gone, the status names its Job in the phase that the
  // Job's state calls for, the Job exists, and if it had succeeded, the image of a
  // production build is in the spec, and a preview build is applied as a preview.
  lemma UninterruptedReconcileAccepts(w: World, app: App, now: Time)
    requires Buildable(w, app)
    ensures
      var w' := Reconciled(w, app, now);
      var build := Derive(app, now).value;
      var job := Followed(w, build);
      && w'.local == Busy(app, now, [], Return)
      && w'.app.name == w.app.name && Annotation(w'.app, BUILD_TRIGGER).None?
      && Recorded(w'.app, build.trigger, build.jobName)
      && w'.app.status.build.value.phase == PhaseFor(ClassifyJob(job))
      && w'.jobs == JobsWith(w, build) && w'.createdJobs == CreatedWith(w, build)
      && w'.succeeded == w.succeeded
      && w'.app.spec == w.app.spec.(image := if RollsOut(build, job) then build.image else w.app.spec.image)
      && w'.images == w.images + (if RollsOut(build, job) then [Rollout(Done(app, build, job, now), job)] else [])
      && w'.previews == w.previews + (if ShowsPreview(build, job) then [Done(app, build, job, now)] else [])
      && w'.app.status.phase == if ClassifyJob(job).JobFailed? then Some(PhaseDegraded) else Some(Deploying)
  {
    var build := Derive(app, now).value;
    var v := NewBuildIsRecorded(w, app, now);
    DecisionIsRecorded(v, app, build, Followed(w, build), now);
  }

  // ---- An image that nothing built -------------------------------------------------------

  lemma {:induction false} ExtendByWrites(run: seq<World>) returns (longer: seq<World>)
    requires IsRun(run) && run[|run| - 1].local.Busy?
    ensures IsRun(longer) && run <= longer && longer[|longer| - 1] == PerformAll(run[|run| - 1])
    decreases |run[|run| - 1].local.todo|
  {
    var w := run[|run| - 1];
    if w.local.todo == [] || !Enabled(w, Perform) {
      longer := run;
    } else {
      var next := ExtendRun(run, Perform);
      longer := ExtendByWrites(next);
    }
  }

  lemma ExtendByReconcile(run: seq<World>, now: Time) returns (longer: seq<World>)
    requires IsRun(run) && Buildable(run[|run| - 1], run[|run| - 1].app)
    ensures
      var w := run[|run| - 1];
      IsRun(longer) && run <= longer && longer[|longer| - 1] == Reconciled(w, w.app, now).(local := Idle)
  {
    var w := run[|run| - 1];
    DerivedBuildIsFollowed(w, w.app, now);
    longer := ExtendRun(run, Begin(w.app, now));
    longer := ExtendRun(longer, Look);
    longer := ExtendByWrites(longer);
    longer := ExtendRun(longer, Stop);
  }

  function Finished(build: Build): Job
  {
    NewJob(build).(status := Some(JobStatus(Some(1), None, [])))
  }

  function Tagged(app: App, suffix: string): string
    requires app.spec.source.Some?
  {
    app.spec.source.value.repository + (":" + (app.name + suffix))
  }

  lemma TriggerNamesImage(app: App, trigger: string, now: Time)
    requires app.spec.source.Some? && app.annotations == map[BUILD_TRIGGER := trigger] && |trigger| <= 8
    ensures Derivable(app) && Derive(app, now).Some? && Annotation(app, PREVIEW_ACTION) != Some("delete")
    ensures
      var build := Derive(app, now).value;
      && build.target == Production && build.image == Tagged(app, "-" + trigger)
      && build.jobName == BuildJobName(app.name, app.name + ("-" + trigger))
  {
    assert app.name + "-" + trigger == app.name + ("-" + trigger);
  }

  lemma VariantsDiffer(app: App)
    requires app.spec.source.Some?
    ensures Tagged(app, "-V1") != Tagged(app, "-v1")
    ensures BuildJobName(app.name, app.name + "-V1") == BuildJobName(app.name, app.name + "-v1")
  {
    LetterCaseSharesJob(app.name);
    var front := app.spec.source.value.repository + ":";
    PrependIsInjective(front, app.name + "-V1", app.name + "-v1");
    assert Tagged(app, "-V1") == front + (app.name + "-V1") && Tagged(app, "-v1") == front + (app.name + "-v1");
  }

  // The trigger `v1` is accepted.
  lemma LowerCaseIsAccepted(start: World, now: Time) returns (run: seq<World>, build: Build)
    requires Init(start) && start.app.spec.source.Some? && start.app.spec.tenantValid
    ensures IsRun(run) && run[0] == start
    ensures build.jobName == BuildJobName(start.app.name, start.app.name + "-v1") && build.image == Tagged(start.app, "-v1")
    ensures
      var w := run[|run| - 1];
      && w.local.Idle? && w.app.name == start.app.name && w.app.spec == start.app.spec
      && w.jobs == map[build.jobName := NewJob(build)]
      && w.createdJobs == [Target(build.jobName, build.image)] && w.succeeded == {} && w.images == []
  {
    run := [start];
    run := ExtendRun(run, UserAnnotates(map[BUILD_TRIGGER := "v1"]));
    var w := run[1];
    build := Derive(w.app, now).value;
    TriggerNamesImage(w.app, "v1", now);
    assert "-" + "v1" == "-v1";
    run := ExtendByReconcile(run, now);
    UninterruptedReconcileAccepts(w, w.app, now);
  }

  // And its Job succeeds.
  lemma LowerCaseIsBuilt(start: World, now: Time) returns (run: seq<World>, job: Job)
    requires Init(start) && start.app.spec.source.Some? && start.app.spec.tenantValid
    ensures IsRun(run) && run[0] == start
    ensures
      var w := run[|run| - 1];
      var name := BuildJobName(start.app.name, start.app.name + "-v1");
      && w.local.Idle? && w.app.name == start.app.name && w.app.spec == start.app.spec
      && w.jobs == map[name := job] && ClassifyJob(job) == JobSucceeded && job.destination == Tagged(start.app, "-v1")
      && w.createdJobs == [Target(name, job.destination)] && w.succeeded == {Target(name, job.destination)} && w.images == []
  {
    var build;
    run, build := LowerCaseIsAccepted(start, now);
    job := Finished(build);
    run := ExtendRun(run, JobReports(build.jobName, job));
  }

  // The trigger `V1` then finds that Job: an image that nothing built goes into the spec.
  lemma LetterCaseRollsOutUnbuiltImage(start: World, now: Time) returns (run: seq<World>)
    requires Init(start) && start.app.spec.source.Some? && start.app.spec.tenantValid
    ensures IsRun(run) && run[0] == start
    ensures
      var w, image := run[|run| - 1], Tagged(start.app, "-V1");
      && w.app.spec.image == image
      && |w.createdJobs| == 1 && |w.images| == 1
      && w.images[0].build.image == image && !BuiltBy(w.images[0].job, image)
      && (forall target :: target in w.succeeded ==> target.image != image)
  {
    var job;
    run, job := LowerCaseIsBuilt(start, now);
    run := ExtendRun(run, UserAnnotates(map[BUILD_TRIGGER := "V1"]));
    var w := run[|run| - 1];
    TriggerNamesImage(w.app, "V1", now);
    assert "-" + "V1" == "-V1";
    VariantsDiffer(start.app);
    run := ExtendByReconcile(run, now);
    UninterruptedReconcileAccepts(w, w.app, now);
  }
}

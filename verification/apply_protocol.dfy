// `apply` as a protocol: one reconcile reads a snapshot, derives a list of API
// writes from it, and performs them one by one. It can stop after any of them,
// and the user, the Job controllers and other actors move in between.
module ApplyProtocol {
  import opened Wrappers
  import opened Text
  import opened Project
  import opened Conditions

  datatype Write =
    | ClearAnnotations
    | CreateJob(build: Build)
    | DeleteJob(name: string)
    | PatchBuild(build: Build, conditions: seq<Condition>)
    | ClearBuild(conditions: seq<Condition>)
    | SetImage(build: Build, job: Job)  // `job` is the Job that was read
    | ApplyPreview(build: Build)
    | DeletePreview(name: string)
    | ApplyDeployment
    | PatchStatus(kept: Option<Build>, conditions: seq<Condition>, phase: Phase)
    | PatchTenantError(conditions: seq<Condition>)

  // What follows the pending writes.
  datatype Then =
    | Return
    | ReadBuildJob(build: Build, isNew: bool)
    | ReadMigration

  datatype Local =
    | Idle
    | Busy(app: App, now: Time, todo: seq<Write>, then_: Then)

  // A build Job by name, with the image that it builds.
  datatype Target = Target(job: string, image: string)

  // An image that went into the spec, and the Job on whose success it did.
  datatype Rollout = Rollout(build: Build, job: Job)

  datatype World = World(
    app: App,                        // the stored Project
    jobs: map<string, Job>,          // build Jobs by name
    migrations: map<string, Gate>,   // migration Jobs by revision
    local: Local,
    // history
    succeeded: set<Target>,          // build Jobs that have reported success
    migrated: set<string>,           // revisions whose Job has completed
    createdJobs: seq<Target>,        // build Jobs the operator created
    images: seq<Rollout>,            // images the operator put into the spec
    previews: seq<Build>,            // builds whose preview it applied
    deletions: seq<string>,          // previews it deleted
    rollouts: seq<App>)              // snapshots for which it applied the Deployment

  // `migration_revision_key`
  function Revision(app: App): string
  {
    var version := Trim(app.spec.appVersion);
    "image=" + app.spec.image + ";version=" + if version == "" then "unknown" else version
  }

  // The version as it counts for the migration.
  function ShownVersion(app: App): string
  {
    if Trim(app.spec.appVersion) == "" then "unknown" else Trim(app.spec.appVersion)
  }

  // Images without a semicolon, as image references are, share a migration exactly if
  // image and version agree; in general the parts could be told apart differently.
  lemma RevisionsAgreeExactly(app: App, other: App)
    requires ';' !in app.spec.image && ';' !in other.spec.image
    ensures Revision(app) == Revision(other) <==> app.spec.image == other.spec.image && ShownVersion(app) == ShownVersion(other)
  {
    var a, b := app.spec.image, other.spec.image;
    var x, y := "version=" + ShownVersion(app), "version=" + ShownVersion(other);
    assert Revision(app) == "image=" + (a + ([';'] + x)) && Revision(other) == "image=" + (b + ([';'] + y));
    PrependIsInjective("image=", a + ([';'] + x), b + ([';'] + y));
    FirstSemicolonSplits(a, x, b, y);
    PrependIsInjective("version=", ShownVersion(app), ShownVersion(other));
  }

  lemma {:induction false} FirstSemicolonSplits(a: string, x: string, b: string, y: string)
    requires ';' !in a && ';' !in b
    ensures a + ([';'] + x) == b + ([';'] + y) <==> a == b && x == y
  {
    var s, t := a + ([';'] + x), b + ([';'] + y);
    if a != [] && b != [] {
      assert s[1..] == a[1..] + ([';'] + x) && t[1..] == b[1..] + ([';'] + y);
      FirstSemicolonSplits(a[1..], x, b[1..], y);
      assert a == [a[0]] + a[1..] && b == [b[0]] + b[1..] && s == [a[0]] + s[1..] && t == [b[0]] + t[1..];
    } else if a == b {
      assert s == [';'] + x && t == [';'] + y;
      PrependIsInjective([';'], x, y);
    } else {
      assert (if a == [] then b[0] else a[0]) != ';';
      assert s[0] != t[0];
    }
  }

  lemma SemicolonJoinsRevisions(app: App)
    requires Trim(app.spec.appVersion) == "c"
    ensures
      var one := app.(spec := app.spec.(image := "a;version=b"));
      var other := app.(spec := app.spec.(image := "a", appVersion := "b;version=c"));
      Revision(one) == Revision(other)
  {
    assert Trim("b;version=c") == "b;version=c";
    assert "image=" + "a;version=b" + ";version=" + "c" == "image=" + "a" + ";version=" + "b;version=c";
  }

  // ---- The writes a reconcile derives from its snapshot -----------------------------

  function BuildPatch(app: App, build: Build, condition: Condition, now: Time): Write
  {
    PatchBuild(build, BuildConditions(app.status.conditions, condition, now))
  }

  predicate PreviewBuildMatches(build: Build, pr: string, previewName: string)
  {
    build.target == Preview && ((pr != "" && build.prNumber == Some(pr)) || build.previewName == Some(previewName))
  }

  // `reconcile_preview_delete_action`
  function PreviewDeletion(app: App, now: Time): seq<Write>
  {
    var pr := if Annotation(app, PR_NUMBER).Some? then Annotation(app, PR_NUMBER).value else "";
    var name := PreviewName(app.name, pr);
    var build := app.status.build;
    var cancel :=
      if build.Some? && PreviewBuildMatches(build.value, pr, name) then
        (if Blank(build.value.jobName) then [] else [DeleteJob(build.value.jobName)])
        + [ClearBuild(PreviewDeletedConditions(app.status.conditions, now))]
      else [];
    cancel + [DeletePreview(name), ClearAnnotations]
  }

  // Deleting the preview of one PR cancels exactly the derived preview build of that PR.
  lemma DeletionCancelsOwnPreviewOnly(app: App, now: Time, pr: string)
    requires Derive(app, now).Some?
    ensures PreviewBuildMatches(Derive(app, now).value, pr, PreviewName(app.name, pr)) <==>
      Derive(app, now).value.target == Preview && Derive(app, now).value.prNumber == Some(pr)
  {
    var build := Derive(app, now).value;
    if build.target == Preview {
      var own := build.prNumber.value;
      var front := app.name + "-pr-";
      assert PreviewName(app.name, own)[|front|..] == own && PreviewName(app.name, pr)[|front|..] == pr;
      assert !Blank(own) && Blank("");
    }
  }

  function Start(app: App, now: Time): Local
  {
    if !app.spec.tenantValid then Busy(app, now, [PatchTenantError(TenantConditions("TenantMismatch", now))], Return)
    else if Annotation(app, PREVIEW_ACTION) == Some("delete") then Busy(app, now, PreviewDeletion(app, now), Return)
    else
      var clear := if IgnoredRequest(app) then [ClearAnnotations] else [];
      var derived := if IgnoredRequest(app) then None else Derive(app, now);
      if derived.Some? then Busy(app, now, clear, ReadBuildJob(derived.value, true))
      else if BlockedByFailure(app) then Busy(app, now, clear, Return)
      else if ActiveBuild(app).Some? then Busy(app, now, clear, ReadBuildJob(ActiveBuild(app).value, false))
      else Busy(app, now, clear, ReadMigration)
  }

  // The two writes that follow a succeeded build.
  function RolloutOf(app: App, done: Build, job: Job, now: Time): seq<Write>
  {
    var mark := BuildPatch(app, done, Condition(Progressing, CFalse, "BuildSucceeded", Some(now)), now);
    match done.target
    case Production => [SetImage(done, job), mark]
    case Preview => if done.prNumber.Some? && done.previewName.Some? then [ApplyPreview(done), mark] else []
  }

  // `build_decision_from_job_state` and the gate action that follows it.
  function Decide(app: App, build: Build, job: Job, now: Time): seq<Write>
  {
    match ClassifyJob(job)
    case JobRunning =>
      [BuildPatch(app, Transition(app, build, BuildPhase.Running, "BuildRunning", now),
                  Condition(Progressing, CTrue, "BuildRunning", Some(now)), now)]
    case JobFailed(reason) =>
      [BuildPatch(app, Transition(app, build, Failed, reason, now),
                  Condition(Degraded, CTrue, "BuildFailed", Some(now)), now)]
    case JobSucceeded => RolloutOf(app, Transition(app, build, Succeeded, "BuildSucceeded", now), job, now)
  }

  // The rest of `reconcile_source_build` once the Job has been looked up.
  function AfterLookup(app: App, build: Build, isNew: bool, found: Option<Job>, now: Time): seq<Write>
  {
    if found.None? && !isNew then
      [BuildPatch(app, Transition(app, build, Failed, "BuildJobMissing", now),
                  Condition(Degraded, CTrue, "BuildJobMissing", Some(now)), now)]
    else
      var create := if found.None? then [CreateJob(build)] else [];
      var accept :=
        if isNew then [BuildPatch(app, build, Condition(Progressing, CTrue, "BuildPending", Some(now)), now), ClearAnnotations]
        else [];
      create + accept + Decide(app, build, if found.None? then NewJob(build) else found.value, now)
  }

  function StatusWrite(app: App, ready: bool, gate: Gate, children: seq<Condition>, now: Time): Write
  {
    PatchStatus(app.status.build, StatusConditions(app.status.conditions, ready, gate, children, now), PhaseOfGate(ready, gate))
  }

  // The rest of `apply` once the migration gate is known.
  function AfterGate(app: App, gate: Gate, ready: bool, children: seq<Condition>, now: Time): seq<Write>
  {
    if gate == GateRunning || gate == GateFailed then
      [StatusWrite(app, false, gate, [], now)]
    else
      [ApplyDeployment, StatusWrite(app, ready, gate, children, now)]
  }

  // ---- The effect of a write on the stored objects -----------------------------------

  function SetStatus(w: World, status: Status): World
  {
    w.(app := w.app.(status := status))
  }

  function Effect(w: World, write: Write, snapshot: App): World
  {
    var status := w.app.status;
    match write
    case ClearAnnotations =>
      w.(app := w.app.(annotations := w.app.annotations - {BUILD_TRIGGER, PREVIEW_ACTION, PR_NUMBER, PR_BRANCH}))
    case CreateJob(build) =>
      w.(jobs := w.jobs[build.jobName := NewJob(build)],
         createdJobs := w.createdJobs + [Target(build.jobName, build.image)])
    case DeleteJob(name) => w.(jobs := w.jobs - {name})
    case PatchBuild(build, conditions) =>
      SetStatus(w, Status(if PhaseOfBuild(build.phase).Some? then PhaseOfBuild(build.phase) else status.phase,
                          Some(MergeBuild(status.build, build)), conditions))
    case ClearBuild(conditions) => SetStatus(w, Status(status.phase, None, conditions))
    case SetImage(build, job) =>
      w.(app := w.app.(spec := w.app.spec.(image := build.image)), images := w.images + [Rollout(build, job)])
    case ApplyPreview(build) => w.(previews := w.previews + [build])
    case DeletePreview(name) => w.(deletions := w.deletions + [name])
    case ApplyDeployment => w.(rollouts := w.rollouts + [snapshot])
    case PatchStatus(kept, conditions, phase) =>
      SetStatus(w, Status(Some(phase),
                          if kept.Some? then Some(MergeBuild(status.build, kept.value)) else status.build,
                          conditions))
    case PatchTenantError(conditions) => SetStatus(w, Status(Some(PhaseFailed), status.build, conditions))
  }

  // A POST for a name that is taken is rejected.
  predicate Accepted(w: World, write: Write)
  {
    write.CreateJob? ==> write.build.jobName !in w.jobs
  }

  // ---- Steps ---------------------------------------------------------------------------

  datatype Step =
    | Begin(app: App, now: Time)  // `app` is what the cache holds
    | Perform                     // the next write takes effect
    | Skip                        // a failed Job deletion is logged and ignored
    | Look                        // the build Job is looked up
    | Gated(rerun: bool, ready: bool, children: seq<Condition>)  // the migration gate reports
    | Stop                        // the reconcile returns, its call fails, or it crashes
    | UserAnnotates(annotations: map<string, string>)
    | UserEdits(spec: Spec)
    | JobReports(name: string, job: Job)
    | JobAppears(name: string, job: Job)  // created by somebody else
    | JobGone(name: string)
    | MigrationReports(revision: string, gate: Gate)
    | MigrationGone(revision: string)

  predicate Enabled(w: World, step: Step)
  {
    match step
    case Begin(app, _) => w.local.Idle? && app.name == w.app.name
    case Perform => w.local.Busy? && w.local.todo != [] && Accepted(w, w.local.todo[0])
    case Skip => w.local.Busy? && w.local.todo != [] && w.local.todo[0].DeleteJob?
    case Look => w.local.Busy? && w.local.todo == [] && w.local.then_.ReadBuildJob?
    case Gated(_, _, children) => w.local.Busy? && w.local.todo == [] && w.local.then_.ReadMigration? && ChildTypes(children)
    // the Pod template of a Job is immutable
    case JobReports(name, job) => name in w.jobs && job.destination == w.jobs[name].destination
    case JobAppears(name, _) => name !in w.jobs
    case MigrationReports(revision, gate) =>
      gate != NotRequired && (revision in w.migrations && w.migrations[revision] == GateSucceeded ==> gate == GateSucceeded)
    case _ => true
  }

  // What `reconcile_migration_job_resource` reports: an absent Job is created, and
  // a failed one may be deleted for a rerun.
  function MigrationGate(w: World, app: App, rerun: bool): Gate
  {
    if !app.spec.database then NotRequired
    else if Revision(app) !in w.migrations then GateRunning
    else if w.migrations[Revision(app)] == GateFailed && rerun then GateRunning
    else w.migrations[Revision(app)]
  }

  function ReportJob(w: World, name: string, job: Job): World
  {
    w.(jobs := w.jobs[name := job],
       succeeded := if ClassifyJob(job) == JobSucceeded then w.succeeded + {Target(name, job.destination)} else w.succeeded)
  }

  function Next(w: World, step: Step): World
    requires Enabled(w, step)
  {
    match step
    case Begin(app, now) => w.(local := Start(app, now))
    case Perform =>
      Effect(w, w.local.todo[0], w.local.app).(local := w.local.(todo := w.local.todo[1..]))
    case Skip => w.(local := w.local.(todo := w.local.todo[1..]))
    case Look =>
      var build := w.local.then_.build;
      var found := if build.jobName in w.jobs then Some(w.jobs[build.jobName]) else None;
      w.(local := Busy(w.local.app, w.local.now,
                       AfterLookup(w.local.app, build, w.local.then_.isNew, found, w.local.now), Return))
    case Gated(rerun, ready, children) =>
      var gate := MigrationGate(w, w.local.app, rerun);
      w.(local := Busy(w.local.app, w.local.now, AfterGate(w.local.app, gate, ready, children, w.local.now), Return))
    case Stop => w.(local := Idle)
    case UserAnnotates(annotations) => w.(app := w.app.(annotations := annotations))
    case UserEdits(spec) => w.(app := w.app.(spec := spec))
    case JobReports(name, job) => ReportJob(w, name, job)
    case JobAppears(name, job) => ReportJob(w, name, job)
    case JobGone(name) => w.(jobs := w.jobs - {name})
    case MigrationReports(revision, gate) =>
      w.(migrations := w.migrations[revision := gate],
         migrated := if gate == GateSucceeded then w.migrated + {revision} else w.migrated)
    case MigrationGone(revision) => w.(migrations := w.migrations - {revision})
  }

  predicate Init(w: World)
  {
    && w.local.Idle?
    && w.app.status == Status(None, None, [])
    && w.jobs == map[] && w.migrations == map[]
    && w.succeeded == {} && w.migrated == {} && w.createdJobs == []
    && w.images == [] && w.previews == [] && w.deletions == [] && w.rollouts == []
  }

  ghost predicate Steps(w: World, w': World)
  {
    exists step :: Enabled(w, step) && Next(w, step) == w'
  }

  // Reconciles may start from any snapshot.
  ghost predicate IsRun(run: seq<World>)
  {
    && run != [] && Init(run[0])
    && forall i :: 0 <= i < |run| - 1 ==> Steps(run[i], run[i + 1])
  }

  ghost predicate CachedSteps(run: seq<World>, i: nat)
    requires i + 1 < |run|
  {
    exists step ::
      && Enabled(run[i], step) && Next(run[i], step) == run[i + 1]
      && (step.Begin? ==> exists j :: 0 <= j <= i && run[j].app == step.app)
  }

  // Reconciles start from the stored Project or from any of its past versions.
  ghost predicate IsCachedRun(run: seq<World>)
  {
    && run != [] && Init(run[0])
    && forall i :: 0 <= i < |run| - 1 ==> CachedSteps(run, i)
  }
}

// What an uninterrupted reconcile does in each branch that derives no build, stated in
// the stored objects: a tenancy error, a preview deletion, a failed build, an active
// build, and the rollout behind the migration gate. `ApplyAccept` covers new builds.
module ApplyBranches {
  import opened Wrappers
  import opened Text
  import opened Project
  import opened Conditions
  import opened ApplyProtocol
  import opened ApplySafety
  import opened ApplyAccept

  // The writes up to the first lookup.
  function Started(w: World, app: App, now: Time): (w': World)
    requires w.local.Idle? && app.name == w.app.name
    ensures w'.local.Busy?
  {
    assert Start(app, now).Busy?;
    PerformAll(Next(w, Begin(app, now)))
  }

  lemma PerformNone(w: World)
    requires w.local.Busy? && w.local.todo == []
    ensures PerformAll(w) == w
  {
  }

  // ---- Nothing but an error --------------------------------------------------------------

  lemma TenantErrorIsReported(w: World, app: App, now: Time)
    requires w.local.Idle? && app.name == w.app.name && !app.spec.tenantValid
    ensures
      Started(w, app, now) ==
        w.(app := w.app.(status := Status(Some(PhaseFailed), w.app.status.build,
                                          [Condition(Degraded, CTrue, "TenantMismatch", Some(now))])),
           local := Busy(app, now, [], Return))
  {
    PerformFirst(Next(w, Begin(app, now)), PatchTenantError(TenantConditions("TenantMismatch", now)), []);
  }

  // A failed build blocks everything until a new trigger.
  lemma FailureBlocks(w: World, app: App, now: Time)
    requires w.local.Idle? && app.name == w.app.name && app.spec.tenantValid
    requires Annotation(app, "reinhardt.dev/build-trigger").None? && Annotation(app, "reinhardt.dev/preview-action") != Some("delete")
    requires app.status.build.Some? && app.status.build.value.phase == Failed
    ensures Started(w, app, now) == w.(local := Busy(app, now, [], Return))
  {
  }

  // An ignored trigger is taken off the stored Project, with everything that came with it.
  lemma IgnoredTriggerIsCleared(w: World, app: App, now: Time)
    requires w.local.Idle? && app.name == w.app.name && app.spec.tenantValid
    requires Annotation(app, PREVIEW_ACTION) != Some("delete") && IgnoredRequest(app)
    ensures
      var w' := Started(w, app, now);
      && w' == w.(app := w'.app, local := w'.local)
      && w'.app == w.app.(annotations := w'.app.annotations) && Cleared(w'.app, w.app)
      && w'.local.todo == [] && !(w'.local.then_.ReadBuildJob? && w'.local.then_.isNew)
  {
    PerformFirst(Next(w, Begin(app, now)), ClearAnnotations, []);
  }

  // Exactly the four request annotations are gone.
  predicate Cleared(app': App, app: App)
  {
    app'.annotations == app.annotations - {"reinhardt.dev/build-trigger", "reinhardt.dev/preview-action",
                                           "reinhardt.dev/pr-number", "reinhardt.dev/pr-branch"}
  }

  // ---- Preview deletion ------------------------------------------------------------------

  function RequestedPr(app: App): string
  {
    if "reinhardt.dev/pr-number" in app.annotations then app.annotations["reinhardt.dev/pr-number"] else ""
  }

  predicate BuildsPreview(app: App, pr: string)
  {
    && app.status.build.Some? && app.status.build.value.target == Preview
    && ((pr != "" && app.status.build.value.prNumber == Some(pr))
        || app.status.build.value.previewName == Some(app.name + "-pr-" + pr))
  }

  lemma PreviewTail(w: World, name: string)
    requires w.local.Busy? && w.local.todo == [DeletePreview(name), ClearAnnotations]
    ensures
      var w' := PerformAll(w);
      && w' == w.(app := w'.app, local := w.local.(todo := []), deletions := w.deletions + [name])
      && w'.app == w.app.(annotations := w'.app.annotations) && Cleared(w'.app, w.app)
  {
    PerformFirst(w, DeletePreview(name), [ClearAnnotations]);
    var v := Effect(w, DeletePreview(name), w.local.app).(local := w.local.(todo := [ClearAnnotations]));
    PerformFirst(v, ClearAnnotations, []);
  }

  lemma CancelThenTail(w: World, job: string, conditions: seq<Condition>, tail: seq<Write>) returns (v: World)
    requires w.local.Busy?
    requires w.local.todo == (if Blank(job) then [] else [DeleteJob(job)]) + ([ClearBuild(conditions)] + tail)
    ensures v.local.Busy? && PerformAll(w) == PerformAll(v)
    ensures
      v == w.(app := w.app.(status := Status(w.app.status.phase, None, conditions)),
              jobs := if Blank(job) then w.jobs else w.jobs - {job},
              local := w.local.(todo := tail))
  {
    v := w;
    if Blank(job) {
      assert w.local.todo == [ClearBuild(conditions)] + tail;
    } else {
      PerformFirst(w, DeleteJob(job), [ClearBuild(conditions)] + tail);
      v := Effect(w, DeleteJob(job), w.local.app).(local := w.local.(todo := [ClearBuild(conditions)] + tail));
    }
    PerformFirst(v, ClearBuild(conditions), tail);
    v := Effect(v, ClearBuild(conditions), v.local.app).(local := v.local.(todo := tail));
  }

  lemma DeletionWrites(app: App, now: Time)
    ensures
      var pr := RequestedPr(app);
      var tail := [DeletePreview(app.name + "-pr-" + pr), ClearAnnotations];
      PreviewDeletion(app, now) ==
        if BuildsPreview(app, pr) then
          (if Blank(app.status.build.value.jobName) then [] else [DeleteJob(app.status.build.value.jobName)])
          + ([ClearBuild(PreviewDeletedConditions(app.status.conditions, now))] + tail)
        else tail
  {
  }

  // The preview of the requested PR is deleted, its build is cancelled with its Job, and
  // the request is gone; nothing else happens.
  lemma PreviewIsDeleted(w: World, app: App, now: Time)
    requires w.local.Idle? && app.name == w.app.name && app.spec.tenantValid
    requires Annotation(app, "reinhardt.dev/preview-action") == Some("delete")
    ensures
      var w' := Started(w, app, now);
      var pr := RequestedPr(app);
      && w'.local == Busy(app, now, [], Return)
      && w'.deletions == w.deletions + [app.name + "-pr-" + pr]
      && Cleared(w'.app, w.app) && w'.app == w.app.(annotations := w'.app.annotations, status := w'.app.status)
      && w' == w.(app := w'.app, jobs := w'.jobs, local := w'.local, deletions := w'.deletions)
      && (BuildsPreview(app, pr) ==>
            && w'.app.status == Status(w.app.status.phase, None, PreviewDeletedConditions(app.status.conditions, now))
            && w'.jobs == if Blank(app.status.build.value.jobName) then w.jobs else w.jobs - {app.status.build.value.jobName})
      && (!BuildsPreview(app, pr) ==> w'.app.status == w.app.status && w'.jobs == w.jobs)
  {
    var pr := RequestedPr(app);
    var tail := [DeletePreview(app.name + "-pr-" + pr), ClearAnnotations];
    DeletionWrites(app, now);
    var v := Next(w, Begin(app, now));
    if BuildsPreview(app, pr) {
      v := CancelThenTail(v, app.status.build.value.jobName, PreviewDeletedConditions(app.status.conditions, now), tail);
    }
    PreviewTail(v, app.name + "-pr-" + pr);
  }

  // ---- An active build -------------------------------------------------------------------

  // The snapshot's build is in progress, and no request comes before it.
  predicate Follows(w: World, app: App, build: Build)
  {
    && w.local.Idle? && app.name == w.app.name && app.spec.tenantValid
    && Annotation(app, "reinhardt.dev/build-trigger").None? && Annotation(app, "reinhardt.dev/preview-action") != Some("delete")
    && app.status.build == Some(build) && (build.phase == Pending || build.phase == BuildPhase.Running)
  }

  lemma FollowStarts(w: World, app: App, build: Build, now: Time)
    requires Follows(w, app, build)
    ensures Started(w, app, now) == w.(local := Busy(app, now, [], ReadBuildJob(build, false)))
  {
  }

  // The reconcile of that build, after its Job has been looked up.
  function FollowedUp(w: World, app: App, build: Build, now: Time): (w': World)
    requires Follows(w, app, build)
    ensures w'.local.Busy?
  {
    FollowStarts(w, app, build, now);
    PerformAll(Next(Started(w, app, now), Look))
  }

  lemma FollowWrites(w: World, app: App, build: Build, now: Time) returns (v: World)
    requires Follows(w, app, build)
    ensures
      var found := if build.jobName in w.jobs then Some(w.jobs[build.jobName]) else None;
      v == w.(local := Busy(app, now, AfterLookup(app, build, false, found, now), Return))
    ensures FollowedUp(w, app, build, now) == PerformAll(v)
  {
    FollowStarts(w, app, build, now);
    v := Next(Started(w, app, now), Look);
  }

  // What a build write makes of the stored Project.
  predicate BuildStored(app': App, app: App, trigger: string, jobName: string, phase: BuildPhase, reason: string)
  {
    var build := app'.status.build;
    && app' == app.(status := app'.status)
    && build.Some? && build.value.trigger == trigger && build.value.jobName == jobName
    && build.value.phase == phase && build.value.reason == Some(reason)
  }

  lemma PatchIsStored(w: World, build: Build, conditions: seq<Condition>)
    requires w.local.Busy? && w.local.todo == [PatchBuild(build, conditions)]
    ensures
      PerformAll(w) ==
        w.(app := w.app.(status := Status(match build.phase
                                          case Failed => Some(PhaseDegraded)
                                          case Succeeded => w.app.status.phase
                                          case Pending => Some(Deploying)
                                          case Running => Some(Deploying),
                                          Some(MergeBuild(w.app.status.build, build)), conditions)),
           local := w.local.(todo := []))
  {
    PerformFirst(w, PatchBuild(build, conditions), []);
  }

  lemma MarkIsStored(w: World, first: Write, build: Build, conditions: seq<Condition>)
    requires w.local.Busy? && w.local.todo == [first, PatchBuild(build, conditions)]
    requires build.phase == Succeeded && (first.SetImage? || first.ApplyPreview?)
    ensures
      var done := Effect(w, first, w.local.app);
      PerformAll(w) ==
        done.(app := done.app.(status := Status(w.app.status.phase, Some(MergeBuild(w.app.status.build, build)), conditions)),
              local := w.local.(todo := []))
  {
    assert w.local.todo == [first] + [PatchBuild(build, conditions)];
    PerformFirst(w, first, [PatchBuild(build, conditions)]);
    var done := Effect(w, first, w.local.app).(local := w.local.(todo := [PatchBuild(build, conditions)]));
    PatchIsStored(done, build, conditions);
  }

  // A followed build whose Job is gone has failed.
  lemma MissingJobFailsBuild(w: World, app: App, build: Build, now: Time)
    requires Follows(w, app, build) && build.jobName !in w.jobs
    ensures
      var w' := FollowedUp(w, app, build, now);
      && w' == w.(app := w'.app, local := w'.local)
      && BuildStored(w'.app, w.app, build.trigger, build.jobName, Failed, "BuildJobMissing")
      && w'.app.status.phase == Some(PhaseDegraded)
      && w'.app.status.conditions ==
           BuildConditions(app.status.conditions, Condition(Degraded, CTrue, "BuildJobMissing", Some(now)), now)
  {
    var v := FollowWrites(w, app, build, now);
    PatchIsStored(v, v.local.todo[0].build, v.local.todo[0].conditions);
  }

  // A Job without a result keeps the build running, and a failed one fails it with its
  // own reason; neither ships anything.
  lemma UnfinishedJobIsRecorded(w: World, app: App, build: Build, now: Time)
    requires Follows(w, app, build) && build.jobName in w.jobs && ClassifyJob(w.jobs[build.jobName]) != JobSucceeded
    ensures
      var w' := FollowedUp(w, app, build, now);
      && w' == w.(app := w'.app, local := w'.local)
      && match ClassifyJob(w.jobs[build.jobName])
         case JobRunning =>
           && BuildStored(w'.app, w.app, build.trigger, build.jobName, BuildPhase.Running, "BuildRunning")
           && w'.app.status.phase == Some(Deploying)
           && w'.app.status.conditions ==
                BuildConditions(app.status.conditions, Condition(Progressing, CTrue, "BuildRunning", Some(now)), now)
         case JobFailed(reason) =>
           && BuildStored(w'.app, w.app, build.trigger, build.jobName, Failed, reason)
           && w'.app.status.phase == Some(PhaseDegraded)
           && w'.app.status.conditions ==
                BuildConditions(app.status.conditions, Condition(Degraded, CTrue, "BuildFailed", Some(now)), now)
         case JobSucceeded => false
  {
    var v := FollowWrites(w, app, build, now);
    PatchIsStored(v, v.local.todo[0].build, v.local.todo[0].conditions);
  }

  // The build as it is marked once its Job has succeeded, and the two writes that follow.
  lemma ShippingWrites(app: App, build: Build, job: Job, now: Time) returns (done: Build, conditions: seq<Condition>)
    requires ClassifyJob(job) == JobSucceeded
    requires build.target == Preview ==> build.prNumber.Some? && build.previewName.Some?
    ensures done == build.(phase := Succeeded, reason := Some("BuildSucceeded"), lastTransitionTime := done.lastTransitionTime)
    ensures conditions == BuildConditions(app.status.conditions, Condition(Progressing, CFalse, "BuildSucceeded", Some(now)), now)
    ensures AfterLookup(app, build, false, Some(job), now) ==
      [if build.target == Production then SetImage(done, job) else ApplyPreview(done), PatchBuild(done, conditions)]
  {
    done := Transition(app, build, Succeeded, "BuildSucceeded", now);
    conditions := BuildConditions(app.status.conditions, Condition(Progressing, CFalse, "BuildSucceeded", Some(now)), now);
  }

  // A succeeded Job ships a production build as the image of the spec, and marks it.
  lemma SucceededJobShipsImage(w: World, app: App, build: Build, now: Time) returns (done: Build, conditions: seq<Condition>)
    requires Follows(w, app, build) && build.jobName in w.jobs && ClassifyJob(w.jobs[build.jobName]) == JobSucceeded
    requires build.target == Production
    ensures done == build.(phase := Succeeded, reason := Some("BuildSucceeded"), lastTransitionTime := done.lastTransitionTime)
    ensures conditions == BuildConditions(app.status.conditions, Condition(Progressing, CFalse, "BuildSucceeded", Some(now)), now)
    ensures FollowedUp(w, app, build, now) ==
      w.(app := w.app.(spec := w.app.spec.(image := build.image),
                       status := Status(w.app.status.phase, Some(MergeBuild(w.app.status.build, done)), conditions)),
         images := w.images + [Rollout(done, w.jobs[build.jobName])],
         local := Busy(app, now, [], Return))
  {
    var v := FollowWrites(w, app, build, now);
    done, conditions := ShippingWrites(app, build, w.jobs[build.jobName], now);
    MarkIsStored(v, SetImage(done, w.jobs[build.jobName]), done, conditions);
  }

  // And a preview build, which always names its PR and its preview, as that preview; the
  // spec stays as it is.
  lemma SucceededJobShipsPreview(w: World, app: App, build: Build, now: Time) returns (done: Build, conditions: seq<Condition>)
    requires Follows(w, app, build) && build.jobName in w.jobs && ClassifyJob(w.jobs[build.jobName]) == JobSucceeded
    requires build.target == Preview && build.prNumber.Some? && build.previewName.Some?
    ensures done == build.(phase := Succeeded, reason := Some("BuildSucceeded"), lastTransitionTime := done.lastTransitionTime)
    ensures conditions == BuildConditions(app.status.conditions, Condition(Progressing, CFalse, "BuildSucceeded", Some(now)), now)
    ensures FollowedUp(w, app, build, now) ==
      w.(app := w.app.(status := Status(w.app.status.phase, Some(MergeBuild(w.app.status.build, done)), conditions)),
         previews := w.previews + [done],
         local := Busy(app, now, [], Return))
  {
    var v := FollowWrites(w, app, build, now);
    done, conditions := ShippingWrites(app, build, w.jobs[build.jobName], now);
    MarkIsStored(v, ApplyPreview(done), done, conditions);
  }

  // ---- The rollout -----------------------------------------------------------------------

  // The snapshot's build is settled, and nothing is requested.
  predicate Settled(w: World, app: App)
  {
    && w.local.Idle? && app.name == w.app.name && app.spec.tenantValid
    && Annotation(app, "reinhardt.dev/build-trigger").None? && Annotation(app, "reinhardt.dev/preview-action") != Some("delete")
    && (app.status.build.Some? ==> app.status.build.value.phase == Succeeded)
  }

  lemma SettledStarts(w: World, app: App, now: Time)
    requires Settled(w, app)
    ensures Started(w, app, now) == w.(local := Busy(app, now, [], ReadMigration))
  {
  }

  function RolledOut(w: World, app: App, now: Time, rerun: bool, ready: bool, children: seq<Condition>): (w': World)
    requires Settled(w, app) && ChildTypes(children)
    ensures w'.local.Busy?
  {
    SettledStarts(w, app, now);
    PerformAll(Next(Started(w, app, now), Gated(rerun, ready, children)))
  }

  // The migration of the snapshot's revision is not needed or has completed.
  predicate GateOpen(w: World, app: App)
  {
    !app.spec.database || (Revision(app) in w.migrations && w.migrations[Revision(app)] == GateSucceeded)
  }

  // It has failed, and is not rerun.
  predicate GateShut(w: World, app: App, rerun: bool)
  {
    app.spec.database && Revision(app) in w.migrations && w.migrations[Revision(app)] == GateFailed && !rerun
  }

  function StatusOf(w: World, kept: Option<Build>, conditions: seq<Condition>, phase: Phase): Status
  {
    Status(Some(phase), if kept.None? then w.app.status.build else Some(MergeBuild(w.app.status.build, kept.value)), conditions)
  }

  lemma StatusIsWritten(w: World, kept: Option<Build>, conditions: seq<Condition>, phase: Phase)
    requires w.local.Busy? && w.local.todo == [PatchStatus(kept, conditions, phase)]
    ensures PerformAll(w) ==
      w.(app := w.app.(status := StatusOf(w, kept, conditions, phase)), local := w.local.(todo := []))
  {
    PerformFirst(w, PatchStatus(kept, conditions, phase), []);
  }

  lemma DeploymentIsApplied(w: World, kept: Option<Build>, conditions: seq<Condition>, phase: Phase)
    requires w.local.Busy? && w.local.todo == [ApplyDeployment, PatchStatus(kept, conditions, phase)]
    ensures PerformAll(w) ==
      w.(app := w.app.(status := StatusOf(w, kept, conditions, phase)), rollouts := w.rollouts + [w.local.app],
         local := w.local.(todo := []))
  {
    var status := PatchStatus(kept, conditions, phase);
    assert w.local.todo == [ApplyDeployment] + [status];
    PerformFirst(w, ApplyDeployment, [status]);
    StatusIsWritten(Effect(w, ApplyDeployment, w.local.app).(local := w.local.(todo := [status])), kept, conditions, phase);
  }

  lemma GateWrites(w: World, app: App, now: Time, rerun: bool, ready: bool, children: seq<Condition>) returns (v: World)
    requires Settled(w, app) && ChildTypes(children)
    ensures v == w.(local := Busy(app, now, AfterGate(app, MigrationGate(w, app, rerun), ready, children, now), Return))
    ensures RolledOut(w, app, now, rerun, ready, children) == PerformAll(v)
  {
    SettledStarts(w, app, now);
    v := Next(Started(w, app, now), Gated(rerun, ready, children));
  }

  predicate KnownGates(w: World)
  {
    forall revision :: revision in w.migrations ==> w.migrations[revision] != NotRequired
  }

  lemma GateIsOpenExactly(w: World, app: App, rerun: bool)
    requires KnownGates(w)
    ensures
      var gate := MigrationGate(w, app, rerun);
      && (GateOpen(w, app) <==> gate != GateRunning && gate != GateFailed)
      && (GateShut(w, app, rerun) <==> gate == GateFailed)
  {
  }

  // What the final status says and rests on.
  lemma RolledOutWorld(w: World, app: App, now: Time, rerun: bool, ready: bool, children: seq<Condition>)
    requires Settled(w, app) && ChildTypes(children) && KnownGates(w)
    ensures
      var open, gate := GateOpen(w, app), MigrationGate(w, app, rerun);
      RolledOut(w, app, now, rerun, ready, children) ==
        w.(app := w.app.(status := StatusOf(w, app.status.build,
                                            StatusConditions(app.status.conditions, open && ready, gate, if open then children else [], now),
                                            PhaseOfGate(open && ready, gate))),
           rollouts := w.rollouts + (if open then [app] else []),
           local := Busy(app, now, [], Return))
  {
    GateIsOpenExactly(w, app, rerun);
    var v := GateWrites(w, app, now, rerun, ready, children);
    var status := v.local.todo[|v.local.todo| - 1];
    if GateOpen(w, app) {
      DeploymentIsApplied(v, status.kept, status.conditions, status.phase);
    } else {
      StatusIsWritten(v, status.kept, status.conditions, status.phase);
      assert w.rollouts + [] == w.rollouts;
    }
  }

  // Behind an open gate the Deployment is applied, and the Project is running exactly if
  // it was observed to be ready; behind a closed one nothing but the status changes.
  lemma SettledProjectIsRolledOut(w: World, app: App, now: Time, rerun: bool, ready: bool, children: seq<Condition>)
    requires Settled(w, app) && ChildTypes(children) && KnownGates(w)
    ensures
      var w' := RolledOut(w, app, now, rerun, ready, children);
      && w' == w.(app := w'.app, rollouts := w'.rollouts, local := Busy(app, now, [], Return))
      && w'.app == w.app.(status := w'.app.status)
      && w'.rollouts == w.rollouts + (if GateOpen(w, app) then [app] else [])
      && (w'.app.status.phase == Some(PhaseRunning) <==> GateOpen(w, app) && ready)
      && (w'.app.status.phase == Some(PhaseDegraded) <==> GateShut(w, app, rerun))
      && (w'.app.status.phase == Some(Deploying) <==> !(GateOpen(w, app) && ready) && !GateShut(w, app, rerun))
      && (app.status.build.None? ==> w'.app.status.build == w.app.status.build)
      && (app.status.build.Some? && w.app.status == app.status ==> w'.app.status.build == app.status.build)
  {
    GateIsOpenExactly(w, app, rerun);
    RolledOutWorld(w, app, now, rerun, ready, children);
  }

  // The conditions agree with the phase.
  lemma RolloutIsReported(w: World, app: App, now: Time, rerun: bool, ready: bool, children: seq<Condition>)
    requires Settled(w, app) && ChildTypes(children) && Unique(children) && Unique(app.status.conditions)
    requires KnownGates(w)
    ensures
      var conditions := RolledOut(w, app, now, rerun, ready, children).app.status.conditions;
      && (Has(conditions, Ready, CTrue) <==> GateOpen(w, app) && ready)
      && (Has(conditions, MigrationReady, CTrue) <==> GateOpen(w, app))
      && (GateShut(w, app, rerun) ==> Has(conditions, Degraded, CTrue))
      && (GateOpen(w, app) ==> forall c: Condition :: c in children ==> c in conditions)
  {
    GateIsOpenExactly(w, app, rerun);
    RolledOutWorld(w, app, now, rerun, ready, children);
    var shown := if GateOpen(w, app) then children else [];
    StatusWriteConditions(app.status.conditions, GateOpen(w, app) && ready, MigrationGate(w, app, rerun), shown, now);
    StatusIsStored(app.status.conditions, GateOpen(w, app) && ready, MigrationGate(w, app, rerun), shown, now);
  }
}

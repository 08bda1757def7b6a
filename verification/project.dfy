// The parts of a Project that the source build pipeline reads and writes, and the
// pure decisions of source_build.rs.
module Project {
  import opened Wrappers
  import opened Text

  datatype BuildPhase = Pending | Running | Succeeded | Failed
  datatype BuildTarget = Production | Preview

  type Time = int

  datatype Build = Build(
    phase: BuildPhase,
    target: BuildTarget,
    trigger: string,
    jobName: string,
    image: string,
    imageTag: string,
    previewName: Option<string>,
    prNumber: Option<string>,
    branch: Option<string>,
    reason: Option<string>,
    startedAt: Option<Time>,
    lastTransitionTime: Option<Time>)

  datatype ConditionType =
    | Ready | Progressing | Degraded | MigrationReady | DatabaseReady
    | CacheReady | WorkerReady | IngressReady | TlsReady | AutoscalerReady

  datatype ConditionStatus = CTrue | CFalse | CUnknown

  datatype Condition = Condition(
    type_: ConditionType,
    status: ConditionStatus,
    reason: string,
    lastTransitionTime: Option<Time>)

  datatype Phase = PhasePending | Provisioning | Deploying | PhaseRunning | PhaseDegraded | PhaseFailed | Terminating

  datatype Status = Status(phase: Option<Phase>, build: Option<Build>, conditions: seq<Condition>)

  // `repository` is the registry of the build, or `spec.image` without its tag.
  datatype Source = Source(branch: Option<string>, repository: string, previews: bool)

  datatype Spec = Spec(
    image: string,
    appVersion: string,
    source: Option<Source>,
    tenantValid: bool,   // spec.tenant is absent or matches the namespace
    database: bool)      // should_provision_postgresql

  datatype App = App(name: string, annotations: map<string, string>, spec: Spec, status: Status)

  const BUILD_TRIGGER := "reinhardt.dev/build-trigger"
  const PREVIEW_ACTION := "reinhardt.dev/preview-action"
  const PR_NUMBER := "reinhardt.dev/pr-number"
  const PR_BRANCH := "reinhardt.dev/pr-branch"

  // ---- Annotations --------------------------------------------------------------

  function Annotation(app: App, key: string): Option<string>
  {
    if key in app.annotations then Some(app.annotations[key]) else None
  }

  // `s.trim().is_empty()`
  predicate Blank(s: string)
  {
    forall i :: 0 <= i < |s| ==> Whitespace(s[i])
  }

  predicate PreviewsEnabled(app: App)
  {
    app.spec.source.Some? && app.spec.source.value.previews
  }

  predicate PreviewBuildAction(app: App)
  {
    Annotation(app, PREVIEW_ACTION) == Some("create") || Annotation(app, PREVIEW_ACTION) == Some("update")
  }

  function PreviewActionPrNumber(app: App): Option<string>
  {
    var pr := Annotation(app, PR_NUMBER);
    if PreviewBuildAction(app) && pr.Some? && !Blank(pr.value) then pr else None
  }

  function PreviewPrNumber(app: App): Option<string>
  {
    if PreviewsEnabled(app) then PreviewActionPrNumber(app) else None
  }

  predicate DisabledPreviewRequested(app: App)
  {
    PreviewActionPrNumber(app).Some? && !PreviewsEnabled(app)
  }

  predicate MalformedPreviewRequested(app: App)
  {
    PreviewBuildAction(app) && PreviewActionPrNumber(app).None?
  }

  // A trigger that `reconcile_source_build` clears without building.
  predicate IgnoredRequest(app: App)
  {
    Annotation(app, BUILD_TRIGGER).Some? && (DisabledPreviewRequested(app) || MalformedPreviewRequested(app))
  }

  // ---- Names --------------------------------------------------------------------

  predicate IsAlphanumeric(c: char)
  {
    '0' <= c <= '9' || 'A' <= c <= 'Z' || 'a' <= c <= 'z'
  }

  function Sanitize(tag: string): string
  {
    if tag == [] then []
    else [if IsAlphanumeric(tag[0]) || tag[0] == '-' then LowerChar(tag[0]) else '-'] + Sanitize(tag[1..])
  }

  // The tag as it appears in the name of its build Job.
  function JobTag(imageTag: string): string
  {
    var tag := TrimMatches(Sanitize(imageTag), '-');
    if tag == [] then "image" else tag
  }

  function BuildJobName(project: string, imageTag: string): string
  {
    project + "-build-" + JobTag(imageTag)
  }

  function PreviewName(project: string, pr: string): string
  {
    project + "-pr-" + pr
  }

  function Short(trigger: string): string
  {
    if |trigger| <= 8 then trigger else trigger[..8]
  }

  function ImageTag(app: App, trigger: string): string
  {
    match PreviewPrNumber(app)
    case Some(pr) => "pr-" + pr + "-" + Short(trigger)
    case None => app.name + "-" + Short(trigger)
  }

  // The Job name and image of a build both come from its tag.
  predicate WellNamed(app: App, build: Build)
  {
    && build.jobName == BuildJobName(app.name, build.imageTag)
    && EndsWith(build.image, ":" + build.imageTag)
  }

  // ---- derive_new_build_status ---------------------------------------------------

  function Derive(app: App, now: Time): Option<Build>
  {
    var trigger := Annotation(app, BUILD_TRIGGER);
    if app.spec.source.None? || trigger.None? || DisabledPreviewRequested(app) || MalformedPreviewRequested(app)
    then None
    else
      var source := app.spec.source.value;
      var pr := PreviewPrNumber(app);
      var tag := ImageTag(app, trigger.value);
      var branch := Annotation(app, PR_BRANCH);
      Some(Build(
        Pending,
        if pr.Some? then Preview else Production,
        trigger.value,
        BuildJobName(app.name, tag),
        source.repository + (":" + tag),
        tag,
        if pr.Some? then Some(PreviewName(app.name, pr.value)) else None,
        pr,
        if branch.Some? && !Blank(branch.value) then branch else source.branch,
        Some("BuildPending"),
        Some(now),
        Some(now)))
  }

  // What `annotations` hold under a key, if anything.
  predicate Annotated(app: App, key: string, value: string)
  {
    key in app.annotations && app.annotations[key] == value
  }

  predicate AsksForPreview(app: App)
  {
    Annotated(app, "reinhardt.dev/preview-action", "create") || Annotated(app, "reinhardt.dev/preview-action", "update")
  }

  predicate NamesPr(app: App)
  {
    "reinhardt.dev/pr-number" in app.annotations && Trim(app.annotations["reinhardt.dev/pr-number"]) != ""
  }

  // A trigger on a Project with a source becomes a build unless it asks for a preview
  // that is disabled or has no PR number; then it is ignored.
  lemma TriggerBecomesBuildOrIsIgnored(app: App, now: Time)
    requires "reinhardt.dev/build-trigger" in app.annotations
    ensures IgnoredRequest(app) <==>
      AsksForPreview(app) && !(app.spec.source.Some? && app.spec.source.value.previews && NamesPr(app))
    ensures Derive(app, now).Some? <==> app.spec.source.Some? && !IgnoredRequest(app)
    ensures Derive(app, now).Some? ==>
      var build := Derive(app, now).value;
      && build.trigger == app.annotations["reinhardt.dev/build-trigger"]
      && (build.target == Preview <==> AsksForPreview(app))
      && (build.target == Preview ==>
            build.prNumber.Some? && Annotated(app, "reinhardt.dev/pr-number", build.prNumber.value) && NamesPr(app))
      && (build.target == Production ==> build.prNumber == None && build.previewName == None)
  {
    if Annotation(app, PR_NUMBER).Some? {
      BlankIsTrimmedAway(Annotation(app, PR_NUMBER).value);
    }
  }

  // The first eight characters.
  predicate Abbreviates(short: string, trigger: string)
  {
    short <= trigger && (|short| == 8 || (short == trigger && |trigger| < 8))
  }

  // Without the annotation nothing is derived; with it, the build is pending since now, and
  // its tag, names and branch come from these annotations and this source.
  lemma DerivedBuildNames(app: App, now: Time)
    requires Derive(app, now).Some?
    ensures "reinhardt.dev/build-trigger" in app.annotations && app.spec.source.Some?
    ensures
      var build := Derive(app, now).value;
      && build.phase == Pending && build.startedAt == Some(now) && build.lastTransitionTime == Some(now)
      && build.reason == Some("BuildPending")
      && build.image == app.spec.source.value.repository + (":" + build.imageTag)
      && build.jobName == app.name + "-build-" + JobTag(build.imageTag)
      && (build.target == Production ==>
            exists short :: Abbreviates(short, build.trigger) && build.imageTag == app.name + "-" + short)
      && (build.target == Preview ==>
            && build.prNumber.Some? && build.previewName == Some(app.name + "-pr-" + build.prNumber.value)
            && exists short :: Abbreviates(short, build.trigger) && build.imageTag == "pr-" + build.prNumber.value + "-" + short)
      && build.branch ==
           if "reinhardt.dev/pr-branch" in app.annotations && Trim(app.annotations["reinhardt.dev/pr-branch"]) != ""
           then Some(app.annotations["reinhardt.dev/pr-branch"]) else app.spec.source.value.branch
  {
    var build := Derive(app, now).value;
    assert Abbreviates(Short(build.trigger), build.trigger);
    if Annotation(app, PR_BRANCH).Some? {
      BlankIsTrimmedAway(Annotation(app, PR_BRANCH).value);
    }
  }

  lemma {:induction false} BlankIsTrimmedAway(s: string)
    ensures Blank(s) <==> Trim(s) == ""
    decreases |s|
  {
    if s != [] {
      if Whitespace(s[0]) {
        BlankIsTrimmedAway(s[1..]);
        assert Blank(s[1..]) ==> forall i :: 0 < i < |s| ==> s[i] == s[1..][i - 1];
      } else if Whitespace(s[|s| - 1]) {
        BlankIsTrimmedAway(s[..|s| - 1]);
        assert s[..|s| - 1][0] == s[0];
      }
    }
  }

  // ---- Names of build Jobs -------------------------------------------------------

  predicate LabelChar(c: char)
  {
    'a' <= c <= 'z' || '0' <= c <= '9' || c == '-'
  }

  predicate Label(s: string)
  {
    s != [] && s[0] != '-' && s[|s| - 1] != '-' && forall i :: 0 <= i < |s| ==> LabelChar(s[i])
  }

  lemma {:induction false} SanitizedChars(tag: string)
    ensures |Sanitize(tag)| == |tag|
    ensures forall i :: 0 <= i < |tag| ==>
      && LabelChar(Sanitize(tag)[i])
      && (LabelChar(tag[i]) ==> Sanitize(tag)[i] == tag[i])
      && ('A' <= tag[i] <= 'Z' ==> Sanitize(tag)[i] as int == tag[i] as int + 32)
      && (!LabelChar(tag[i]) && !('A' <= tag[i] <= 'Z') ==> Sanitize(tag)[i] == '-')
  {
    if tag != [] {
      SanitizedChars(tag[1..]);
    }
  }

  // The Job name ends in a valid label, which is the tag itself if that is one.
  lemma JobTagIsLabel(tag: string)
    ensures Label(JobTag(tag))
    ensures Label(tag) ==> JobTag(tag) == tag
  {
    SanitizedChars(tag);
    var clean := Sanitize(tag);
    var n := StartIsTrimmed(clean, '-');
    var m := EndIsTrimmed(clean[n..], '-');
    assert TrimMatches(clean, '-') == clean[n..][..m];
    if m > 0 {
      assert clean[n..][0] == clean[n];
    }
    if Label(tag) {
      assert clean == tag;
    }
  }

  lemma PrependIsInjective(front: string, a: string, b: string)
    ensures front + a == front + b <==> a == b
  {
    assert (front + a)[|front|..] == a && (front + b)[|front|..] == b;
  }

  // They agree in their first eight characters.
  predicate SameStart(a: string, b: string)
  {
    if |a| < 8 || |b| < 8 then a == b else forall i :: 0 <= i < 8 ==> a[i] == b[i]
  }

  // Builds of one Project share a Job exactly if their tags agree once sanitized, and
  // an image exactly if their tags agree. Triggers of the same kind give the same tag
  // exactly if they agree in their first eight characters.
  lemma JobsAndImagesAreSharedExactlyByTag(app: App, other: App, now: Time, later: Time)
    requires Derive(app, now).Some? && Derive(other, later).Some?
    requires other.name == app.name && other.spec.source == app.spec.source
    ensures
      var a, b := Derive(app, now).value, Derive(other, later).value;
      && (a.jobName == b.jobName <==> JobTag(a.imageTag) == JobTag(b.imageTag))
      && (a.image == b.image <==> a.imageTag == b.imageTag)
      && (a.prNumber == b.prNumber ==> (a.imageTag == b.imageTag <==> SameStart(a.trigger, b.trigger)))
  {
    var a, b := Derive(app, now).value, Derive(other, later).value;
    var repository := app.spec.source.value.repository;
    PrependIsInjective(app.name + "-build-", JobTag(a.imageTag), JobTag(b.imageTag));
    assert a.image == (repository + ":") + a.imageTag && b.image == (repository + ":") + b.imageTag;
    PrependIsInjective(repository + ":", a.imageTag, b.imageTag);
    if a.prNumber == b.prNumber {
      var front := if a.prNumber.Some? then "pr-" + a.prNumber.value + "-" else app.name + "-";
      assert a.imageTag == front + Short(a.trigger) && b.imageTag == front + Short(b.trigger);
      PrependIsInjective(front, Short(a.trigger), Short(b.trigger));
      assert Short(a.trigger) == Short(b.trigger) <==> SameStart(a.trigger, b.trigger);
    }
  }

  lemma {:induction false} SanitizeConcat(a: string, b: string)
    ensures Sanitize(a + b) == Sanitize(a) + Sanitize(b)
  {
    if a == [] {
      assert a + b == b;
    } else {
      assert (a + b)[1..] == a[1..] + b;
      SanitizeConcat(a[1..], b);
    }
  }

  // The clash: tags that differ in letter case only, for every Project.
  lemma LetterCaseSharesJob(project: string)
    ensures BuildJobName(project, project + "-V1") == BuildJobName(project, project + "-v1")
    ensures project + "-V1" != project + "-v1"
  {
    SanitizeConcat(project, "-V1");
    SanitizeConcat(project, "-v1");
    assert Sanitize("-V1") == "-v1" == Sanitize("-v1");
    PrependIsInjective(project, "-V1", "-v1");
    assert "-V1"[1] != "-v1"[1];
  }

  predicate Active(phase: BuildPhase)
  {
    phase == Pending || phase == Running
  }

  function ActiveBuild(app: App): Option<Build>
  {
    var build := app.status.build;
    if build.Some? && Active(build.value.phase) then build else None
  }

  predicate BlockedByFailure(app: App)
  {
    app.status.build.Some? && app.status.build.value.phase == Failed
  }

  // ---- classify_job_state ---------------------------------------------------------

  datatype JobCondition = JobCondition(type_: string, status: string, reason: Option<string>)
  datatype JobStatus = JobStatus(succeeded: Option<int>, failed: Option<int>, conditions: seq<JobCondition>)
  // `destination` is the image that the Job's Pod template builds and pushes.
  datatype Job = Job(destination: string, backoffLimit: Option<int>, status: Option<JobStatus>)

  // `build_job_for_status`: the destination is derived from the raw tag.
  function NewJob(build: Build): Job
  {
    Job(build.image, None, None)
  }

  datatype JobState = JobRunning | JobSucceeded | JobFailed(reason: string)

  function GetOr(value: Option<int>, default: int): int
  {
    if value.Some? then value.value else default
  }

  function FailedCondition(conditions: seq<JobCondition>): Option<JobCondition>
  {
    if conditions == [] then None
    else if conditions[0].type_ == "Failed" && conditions[0].status == "True" then Some(conditions[0])
    else FailedCondition(conditions[1..])
  }

  function ClassifyJob(job: Job): JobState
  {
    match job.status
    case None => JobRunning
    case Some(status) =>
      if GetOr(status.succeeded, 0) > 0 then JobSucceeded
      else match FailedCondition(status.conditions)
        case Some(condition) => JobFailed(if condition.reason.Some? then condition.reason.value else "JobFailed")
        case None =>
          if GetOr(status.failed, 0) > GetOr(job.backoffLimit, 6) then JobFailed("BackoffLimitExceeded")
          else JobRunning
  }

  predicate ReportsSuccess(job: Job)
  {
    job.status.Some? && job.status.value.succeeded.Some? && job.status.value.succeeded.value > 0
  }

  // The first true Failed condition that is listed.
  predicate FirstFailure(conditions: seq<JobCondition>, i: nat)
  {
    && i < |conditions| && conditions[i].type_ == "Failed" && conditions[i].status == "True"
    && forall j :: 0 <= j < i ==> !(conditions[j].type_ == "Failed" && conditions[j].status == "True")
  }

  predicate Exhausted(job: Job)
  {
    && job.status.Some?
    && (if job.status.value.failed.Some? then job.status.value.failed.value else 0)
       > (if job.backoffLimit.Some? then job.backoffLimit.value else 6)
  }

  // A Job that reports a success is never taken for a failure, whatever else it reports;
  // otherwise it has failed if and only if a true Failed condition is listed or the
  // backoff limit is exhausted, for the reason of the first such condition if there is one.
  lemma SuccessWins(job: Job)
    ensures ClassifyJob(job).JobSucceeded? <==> ReportsSuccess(job)
    ensures ClassifyJob(job).JobFailed? <==>
      job.status.Some? && !ReportsSuccess(job)
      && ((exists c :: c in job.status.value.conditions && c.type_ == "Failed" && c.status == "True") || Exhausted(job))
    ensures forall i: nat :: job.status.Some? && !ReportsSuccess(job) && FirstFailure(job.status.value.conditions, i) ==>
      var reason := job.status.value.conditions[i].reason;
      ClassifyJob(job) == JobFailed(if reason.Some? then reason.value else "JobFailed")
    ensures
      && ClassifyJob(job).JobFailed?
      && !(exists c :: c in job.status.value.conditions && c.type_ == "Failed" && c.status == "True") ==>
        ClassifyJob(job).reason == "BackoffLimitExceeded"
  {
    if job.status.Some? {
      var conditions := job.status.value.conditions;
      FailedConditionIsListed(conditions);
      forall i: nat | FirstFailure(conditions, i) ensures FailedCondition(conditions) == Some(conditions[i]) {
        FirstFailureIsFound(conditions, i);
      }
    }
  }

  lemma {:induction false} FirstFailureIsFound(conditions: seq<JobCondition>, i: nat)
    requires FirstFailure(conditions, i)
    ensures FailedCondition(conditions) == Some(conditions[i])
  {
    if i > 0 {
      assert conditions[1..][i - 1] == conditions[i];
      assert forall j :: 0 <= j < i - 1 ==> conditions[1..][j] == conditions[j + 1];
      FirstFailureIsFound(conditions[1..], i - 1);
    }
  }

  lemma {:induction false} FailedConditionIsListed(conditions: seq<JobCondition>)
    ensures FailedCondition(conditions).Some? <==>
      exists c :: c in conditions && c.type_ == "Failed" && c.status == "True"
    ensures FailedCondition(conditions).Some? ==> FailedCondition(conditions).value in conditions
  {
    if conditions != [] {
      FailedConditionIsListed(conditions[1..]);
      assert forall c :: c in conditions <==> c == conditions[0] || c in conditions[1..];
    }
  }

  // ---- transition_build_status ------------------------------------------------------

  function Transition(app: App, build: Build, phase: BuildPhase, reason: string, now: Time): Build
  {
    var existing := app.status.build;
    var preserved :=
      if existing.Some? && existing.value.phase == phase && existing.value.trigger == build.trigger
         && existing.value.jobName == build.jobName
      then existing.value.lastTransitionTime else None;
    build.(phase := phase, reason := Some(reason),
           lastTransitionTime := if preserved.Some? then preserved else Some(now))
  }

  // The status has this Job for this trigger in this phase.
  predicate InPhase(app: App, build: Build, phase: BuildPhase)
  {
    && app.status.build.Some? && app.status.build.value.phase == phase
    && app.status.build.value.trigger == build.trigger && app.status.build.value.jobName == build.jobName
  }

  // A transition changes the phase, the reason and the time, and the time exactly unless
  // the status has the build in that phase already.
  lemma TransitionTimeMovesExactly(app: App, build: Build, phase: BuildPhase, reason: string, now: Time)
    ensures
      var moved := Transition(app, build, phase, reason, now);
      && moved == build.(phase := phase, reason := Some(reason), lastTransitionTime := moved.lastTransitionTime)
      && (!InPhase(app, build, phase) ==> moved.lastTransitionTime == Some(now))
      && (InPhase(app, build, phase) && app.status.build.value.lastTransitionTime.Some? ==>
            moved.lastTransitionTime == app.status.build.value.lastTransitionTime)
      && (InPhase(app, build, phase) && app.status.build.value.lastTransitionTime.None? ==> moved.lastTransitionTime == Some(now))
  {
  }

  // Recording the same transition again keeps the time of the first one.
  lemma RepeatedTransitionIsStable(app: App, build: Build, phase: BuildPhase, reason: string, now: Time, later: Time)
    ensures
      var first := Transition(app, build, phase, reason, now);
      var recorded := app.(status := app.status.(build := Some(first)));
      Transition(recorded, build, phase, reason, later) == first
  {
  }

  // ---- The wire form of status.build ----------------------------------------------

  function Keep<T>(live: Option<T>, written: Option<T>): Option<T>
  {
    if written.Some? then written else live
  }

  // Absent optional fields are not serialized, so a JSON merge patch (section 2 of
  // RFC 7396) leaves the server's value of such a field in place.
  function MergeBuild(live: Option<Build>, written: Build): Build
  {
    match live
    case None => written
    case Some(stored) =>
      written.(previewName := Keep(stored.previewName, written.previewName),
               prNumber := Keep(stored.prNumber, written.prNumber),
               branch := Keep(stored.branch, written.branch),
               reason := Keep(stored.reason, written.reason),
               startedAt := Keep(stored.startedAt, written.startedAt),
               lastTransitionTime := Keep(stored.lastTransitionTime, written.lastTransitionTime))
  }

  predicate Covers<T>(live: Option<T>, written: Option<T>)
  {
    live.Some? ==> written.Some?
  }

  // The stored build is the written one exactly when the write fills every
  // optional field that the previous build filled.
  lemma MergeStoresWrittenBuild(live: Build, written: Build)
    ensures MergeBuild(Some(live), written) == written <==>
      && Covers(live.previewName, written.previewName) && Covers(live.prNumber, written.prNumber)
      && Covers(live.branch, written.branch) && Covers(live.reason, written.reason)
      && Covers(live.startedAt, written.startedAt) && Covers(live.lastTransitionTime, written.lastTransitionTime)
  {
  }

  // Two triggers in a row: a preview build without a branch inherits the branch
  // of the preview build before it, and a production build keeps its PR number.
  lemma StaleFieldsSurviveNextTrigger(app: App, pr: string, next: string, branch: string, now: Time)
    requires app.spec.source.Some? && app.spec.source.value.branch.None? && app.spec.source.value.previews
    requires app.annotations == map[BUILD_TRIGGER := "a", PREVIEW_ACTION := "create", PR_NUMBER := pr, PR_BRANCH := branch]
    requires !Blank(pr) && !Blank(next) && !Blank(branch)
    ensures
      var first := Derive(app, now);
      var preview := Derive(app.(annotations := map[BUILD_TRIGGER := "b", PREVIEW_ACTION := "update", PR_NUMBER := next]), now);
      var production := Derive(app.(annotations := map[BUILD_TRIGGER := "c"]), now);
      && first.Some? && preview.Some? && production.Some?
      && preview.value.branch == None && MergeBuild(first, preview.value).branch == Some(branch)
      && production.value.prNumber == None && MergeBuild(first, production.value).prNumber == Some(pr)
  {
  }
}

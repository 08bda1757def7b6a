// The order in which a reconcile ships a build: image or preview first, then the mark.
// Over every run, between any two writes, a build that is marked as succeeded has been
// shipped, and a Project that is marked as running has been rolled out.
module ApplyShipping {
  import opened Wrappers
  import opened Project
  import opened Conditions
  import opened ApplyProtocol
  import opened ApplyTriggers

  // The same build, up to what a merge or a transition can change.
  predicate Same(a: Build, b: Build)
  {
    && a.target == b.target && a.jobName == b.jobName && a.trigger == b.trigger
    && a.image == b.image && a.imageTag == b.imageTag
    && (a.target == Preview ==>
          a.prNumber.Some? && a.prNumber == b.prNumber && a.previewName.Some? && a.previewName == b.previewName)
  }

  predicate Shipped(images: seq<Rollout>, previews: seq<Build>, build: Build)
  {
    match build.target
    case Production => exists i :: 0 <= i < |images| && Same(images[i].build, build)
    case Preview => exists i :: 0 <= i < |previews| && Same(previews[i], build)
  }

  predicate ShippedIfDone(images: seq<Rollout>, previews: seq<Build>, build: Option<Build>)
  {
    build.Some? && build.value.phase == Succeeded ==> Shipped(images, previews, build.value)
  }

  function Marked(write: Write): Option<Build>
  {
    match write
    case PatchBuild(build, _) => Some(build)
    case PatchStatus(kept, _, _) => kept
    case _ => None
  }

  function ImagesOf(write: Write): seq<Rollout>
  {
    if write.SetImage? then [Rollout(write.build, write.job)] else []
  }

  function PreviewsOf(write: Write): seq<Build>
  {
    if write.ApplyPreview? then [write.build] else []
  }

  // What the pending writes mark has been shipped before, or by one of them.
  predicate Ordered(images: seq<Rollout>, previews: seq<Build>, todo: seq<Write>)
    decreases |todo|
  {
    todo != [] ==>
      && ShippedIfDone(images, previews, Marked(todo[0]))
      && Ordered(images + ImagesOf(todo[0]), previews + PreviewsOf(todo[0]), todo[1..])
  }

  predicate InOrder(w: World)
  {
    && ShippedIfDone(w.images, w.previews, w.app.status.build)
    && (w.local.Busy? ==>
          && ShippedIfDone(w.images, w.previews, w.local.app.status.build)
          && Ordered(w.images, w.previews, w.local.todo)
          && (w.local.then_.ReadBuildJob? ==> w.local.then_.build.phase != Succeeded))
  }

  // ---- Histories grow ------------------------------------------------------------------

  predicate Grown(w: World, w': World)
  {
    w.images <= w'.images && w.previews <= w'.previews
  }

  lemma ShippedStays(images: seq<Rollout>, previews: seq<Build>, images': seq<Rollout>, previews': seq<Build>, build: Option<Build>)
    requires images <= images' && previews <= previews'
    requires ShippedIfDone(images, previews, build)
    ensures ShippedIfDone(images', previews', build)
  {
    if build.Some? && build.value.phase == Succeeded {
      if build.value.target == Production {
        var i :| 0 <= i < |images| && Same(images[i].build, build.value);
        assert images'[i] == images[i];
      } else {
        var i :| 0 <= i < |previews| && Same(previews[i], build.value);
        assert previews'[i] == previews[i];
      }
    }
  }

  lemma MergeKeepsShipped(images: seq<Rollout>, previews: seq<Build>, live: Option<Build>, written: Build)
    requires ShippedIfDone(images, previews, Some(written))
    ensures ShippedIfDone(images, previews, Some(MergeBuild(live, written)))
  {
    var merged := MergeBuild(live, written);
    if merged.phase == Succeeded {
      if written.target == Production {
        var i :| 0 <= i < |images| && Same(images[i].build, written);
        assert Same(images[i].build, merged);
      } else {
        var i :| 0 <= i < |previews| && Same(previews[i], written);
        assert Same(previews[i], merged);
      }
    }
  }

  // ---- The writes of one reconcile -----------------------------------------------------

  // Writes that mark nothing as succeeded but what has been shipped already.
  predicate MarksShipped(images: seq<Rollout>, previews: seq<Build>, todo: seq<Write>)
  {
    forall i :: 0 <= i < |todo| ==> ShippedIfDone(images, previews, Marked(todo[i]))
  }

  lemma {:induction false} MarksShippedIsOrdered(images: seq<Rollout>, previews: seq<Build>, todo: seq<Write>)
    requires MarksShipped(images, previews, todo)
    ensures Ordered(images, previews, todo)
    decreases |todo|
  {
    if todo != [] {
      var images', previews' := images + ImagesOf(todo[0]), previews + PreviewsOf(todo[0]);
      forall i | 0 <= i < |todo[1..]| ensures ShippedIfDone(images', previews', Marked(todo[1..][i])) {
        ShippedStays(images, previews, images', previews', Marked(todo[i + 1]));
      }
      MarksShippedIsOrdered(images', previews', todo[1..]);
    }
  }

  lemma {:induction false} OrderedAfter(images: seq<Rollout>, previews: seq<Build>, front: seq<Write>, rest: seq<Write>)
    requires MarksShipped(images, previews, front) && Ordered(images, previews, rest)
    requires forall write :: write in front ==> !write.SetImage? && !write.ApplyPreview?
    ensures Ordered(images, previews, front + rest)
    decreases |front|
  {
    if front == [] {
      assert front + rest == rest;
    } else {
      assert (front + rest)[1..] == front[1..] + rest;
      assert front[0] in front && images + [] == images && previews + [] == previews;
      OrderedAfter(images, previews, front[1..], rest);
    }
  }

  lemma RolloutIsOrdered(images: seq<Rollout>, previews: seq<Build>, app: App, done: Build, job: Job, now: Time)
    ensures Ordered(images, previews, RolloutOf(app, done, job, now))
  {
    var todo := RolloutOf(app, done, job, now);
    if |todo| == 2 {
      var images', previews' := images + ImagesOf(todo[0]), previews + PreviewsOf(todo[0]);
      assert done.target == Production ==> Same(images'[|images|].build, done);
      assert done.target == Preview ==> Same(previews'[|previews|], done);
      assert todo[1..] == [todo[1]];
      MarksShippedIsOrdered(images', previews', todo[1..]);
    }
  }

  lemma DecisionIsOrdered(images: seq<Rollout>, previews: seq<Build>, app: App, build: Build, job: Job, now: Time)
    ensures Ordered(images, previews, Decide(app, build, job, now))
  {
    if ClassifyJob(job) == JobSucceeded {
      RolloutIsOrdered(images, previews, app, Transition(app, build, Succeeded, "BuildSucceeded", now), job, now);
    } else {
      MarksShippedIsOrdered(images, previews, Decide(app, build, job, now));
    }
  }

  lemma LookupIsOrdered(images: seq<Rollout>, previews: seq<Build>, app: App, build: Build, isNew: bool, found: Option<Job>, now: Time)
    requires build.phase != Succeeded
    ensures Ordered(images, previews, AfterLookup(app, build, isNew, found, now))
  {
    if found.None? && !isNew {
      MarksShippedIsOrdered(images, previews, AfterLookup(app, build, isNew, found, now));
    } else {
      var decide := Decide(app, build, if found.None? then NewJob(build) else found.value, now);
      DecisionIsOrdered(images, previews, app, build, if found.None? then NewJob(build) else found.value, now);
      if isNew {
        NewBuildWrites(app, build, found, now);
        var front := (if found.None? then [CreateJob(build)] else []) + [Acceptance(app, build, now), ClearAnnotations];
        OrderedAfter(images, previews, front, decide);
        assert AfterLookup(app, build, true, found, now) == front + decide;
      } else {
        assert AfterLookup(app, build, false, found, now) == decide;
      }
    }
  }

  lemma GateIsOrdered(images: seq<Rollout>, previews: seq<Build>, app: App, gate: Gate, ready: bool, children: seq<Condition>, now: Time)
    requires ShippedIfDone(images, previews, app.status.build)
    ensures Ordered(images, previews, AfterGate(app, gate, ready, children, now))
  {
    MarksShippedIsOrdered(images, previews, AfterGate(app, gate, ready, children, now));
  }

  lemma StartIsOrdered(images: seq<Rollout>, previews: seq<Build>, app: App, now: Time)
    ensures Ordered(images, previews, Start(app, now).todo)
    ensures Start(app, now).then_.ReadBuildJob? ==> Start(app, now).then_.build.phase != Succeeded
  {
    var todo := Start(app, now).todo;
    forall i | 0 <= i < |todo| ensures Marked(todo[i]) == None {
      if app.spec.tenantValid && Annotation(app, PREVIEW_ACTION) == Some("delete") {
        assert todo == PreviewDeletion(app, now);
      }
    }
    MarksShippedIsOrdered(images, previews, todo);
  }

  // ---- Steps and runs ------------------------------------------------------------------

  lemma PerformKeepsOrder(w: World)
    requires InOrder(w) && Enabled(w, Perform)
    ensures InOrder(Next(w, Perform)) && Grown(w, Next(w, Perform))
  {
    var w' := Next(w, Perform);
    var write := w.local.todo[0];
    assert w'.images == w.images + ImagesOf(write) && w'.previews == w.previews + PreviewsOf(write);
    ShippedStays(w.images, w.previews, w'.images, w'.previews, w.local.app.status.build);
    ShippedStays(w.images, w.previews, w'.images, w'.previews, w.app.status.build);
    if Marked(write).Some? {
      MergeKeepsShipped(w.images, w.previews, w.app.status.build, Marked(write).value);
    }
  }

  lemma LookKeepsOrder(w: World, step: Step)
    requires InOrder(w) && Enabled(w, step) && (step.Look? || step.Gated?)
    ensures InOrder(Next(w, step)) && Grown(w, Next(w, step))
  {
    if step.Look? {
      var build := w.local.then_.build;
      var found := if build.jobName in w.jobs then Some(w.jobs[build.jobName]) else None;
      LookupIsOrdered(w.images, w.previews, w.local.app, build, w.local.then_.isNew, found, w.local.now);
    } else {
      GateIsOrdered(w.images, w.previews, w.local.app, MigrationGate(w, w.local.app, step.rerun), step.ready,
                    step.children, w.local.now);
    }
  }

  lemma SkipKeepsOrder(w: World)
    requires InOrder(w) && Enabled(w, Skip)
    ensures InOrder(Next(w, Skip))
  {
    assert w.images + [] == w.images && w.previews + [] == w.previews;
  }

  lemma StepKeepsOrder(w: World, step: Step)
    requires InOrder(w) && Enabled(w, step)
    requires step.Begin? ==> ShippedIfDone(w.images, w.previews, step.app.status.build)
    ensures InOrder(Next(w, step)) && Grown(w, Next(w, step))
  {
    if step.Perform? {
      PerformKeepsOrder(w);
    } else if step.Look? || step.Gated? {
      LookKeepsOrder(w, step);
    } else if step.Begin? {
      StartIsOrdered(w.images, w.previews, step.app, step.now);
    } else if step.Skip? {
      SkipKeepsOrder(w);
    }
  }

  // One step of such a run, when everything before it was in order.
  lemma CachedStepShipsInOrder(run: seq<World>, k: nat)
    requires k + 1 < |run| && CachedSteps(run, k)
    requires forall j :: 0 <= j <= k ==> InOrder(run[j]) && Grown(run[j], run[k])
    ensures InOrder(run[k + 1]) && Grown(run[k], run[k + 1])
  {
    var w := run[k];
    var step :|
      && Enabled(w, step) && Next(w, step) == run[k + 1]
      && (step.Begin? ==> exists j :: 0 <= j <= k && run[j].app == step.app);
    if step.Begin? {
      var j :| 0 <= j <= k && run[j].app == step.app;
      assert InOrder(run[j]) && Grown(run[j], w);
      ShippedStays(run[j].images, run[j].previews, w.images, w.previews, step.app.status.build);
    }
    StepKeepsOrder(w, step);
  }

  lemma {:induction false} CachedRunsShipInOrder(run: seq<World>, k: nat)
    requires IsCachedRun(run) && k < |run|
    ensures forall j :: 0 <= j <= k ==> InOrder(run[j]) && Grown(run[j], run[k])
  {
    if k > 0 {
      CachedRunsShipInOrder(run, k - 1);
      assert CachedSteps(run, k - 1);
      CachedStepShipsInOrder(run, k - 1);
      forall j | 0 <= j <= k ensures InOrder(run[j]) && Grown(run[j], run[k]) {
        if j < k {
          assert Grown(run[j], run[k - 1]);
        }
      }
    }
  }

  // Whatever interrupted which reconcile: if the stored build is marked as succeeded, the
  // operator has put its image into the spec, or has applied its preview.
  lemma SucceededBuildsWereShipped(run: seq<World>, k: nat) returns (i: nat)
    requires IsCachedRun(run) && k < |run|
    requires run[k].app.status.build.Some? && run[k].app.status.build.value.phase == Succeeded
    ensures
      var build := run[k].app.status.build.value;
      build.target == Production ==>
        && i < |run[k].images|
        && var shipped := run[k].images[i].build;
           shipped.jobName == build.jobName && shipped.trigger == build.trigger && shipped.image == build.image
    ensures
      var build := run[k].app.status.build.value;
      build.target == Preview ==>
        && i < |run[k].previews|
        && var shipped := run[k].previews[i];
           && shipped.jobName == build.jobName && shipped.trigger == build.trigger && shipped.image == build.image
           && build.prNumber.Some? && shipped.prNumber == build.prNumber
           && build.previewName.Some? && shipped.previewName == build.previewName
  {
    CachedRunsShipInOrder(run, k);
    var build := run[k].app.status.build.value;
    assert InOrder(run[k]);
    if build.target == Production {
      i :| 0 <= i < |run[k].images| && Same(run[k].images[i].build, build);
    } else {
      i :| 0 <= i < |run[k].previews| && Same(run[k].previews[i], build);
    }
  }

  // ---- The Deployment before the phase -------------------------------------------------

  predicate Runs(write: Write)
  {
    write.PatchStatus? && write.phase == PhaseRunning
  }

  // The pending writes report the Project as running only once its Deployment is applied.
  predicate AppliedFirst(rolledOut: bool, todo: seq<Write>)
    decreases |todo|
  {
    todo != [] ==> (Runs(todo[0]) ==> rolledOut) && AppliedFirst(rolledOut || todo[0].ApplyDeployment?, todo[1..])
  }

  lemma {:induction false} QuietWritesComeInAnyOrder(rolledOut: bool, todo: seq<Write>)
    requires forall write :: write in todo ==> !Runs(write)
    ensures AppliedFirst(rolledOut, todo)
    decreases |todo|
  {
    if todo != [] {
      assert todo[0] in todo;
      forall write | write in todo[1..] ensures !Runs(write) {
        assert write in todo;
      }
      QuietWritesComeInAnyOrder(rolledOut || todo[0].ApplyDeployment?, todo[1..]);
    }
  }

  predicate RunsOnlyAfterRollout(w: World)
  {
    && (w.app.status.phase == Some(PhaseRunning) ==> w.rollouts != [])
    && (w.local.Busy? ==> AppliedFirst(w.rollouts != [], w.local.todo))
  }

  lemma GateAppliesFirst(rolledOut: bool, app: App, gate: Gate, ready: bool, children: seq<Condition>, now: Time)
    ensures AppliedFirst(rolledOut, AfterGate(app, gate, ready, children, now))
  {
    var todo := AfterGate(app, gate, ready, children, now);
    if |todo| == 2 {
      assert todo[1..] == [todo[1]] && todo[1..][1..] == [];
    } else {
      QuietWritesComeInAnyOrder(rolledOut, todo);
    }
  }

  lemma BuildWritesAreQuiet(w: World, step: Step)
    requires Enabled(w, step) && (step.Look? || step.Begin?)
    ensures
      var local := Next(w, step).local;
      local.Busy? && forall write :: write in local.todo ==> !Runs(write)
  {
  }

  lemma StepRunsAfterRollout(w: World, step: Step)
    requires RunsOnlyAfterRollout(w) && Enabled(w, step)
    ensures RunsOnlyAfterRollout(Next(w, step))
  {
    if step.Look? || step.Begin? {
      BuildWritesAreQuiet(w, step);
      QuietWritesComeInAnyOrder(w.rollouts != [], Next(w, step).local.todo);
    } else if step.Gated? {
      GateAppliesFirst(w.rollouts != [], w.local.app, MigrationGate(w, w.local.app, step.rerun), step.ready,
                       step.children, w.local.now);
    }
  }

  // The stored phase is Running only if the operator has applied the Deployment.
  lemma {:induction false} RunningWasRolledOut(run: seq<World>, k: nat)
    requires IsRun(run) && k < |run|
    ensures RunsOnlyAfterRollout(run[k])
    ensures run[k].app.status.phase == Some(PhaseRunning) ==> run[k].rollouts != []
  {
    if k > 0 {
      RunningWasRolledOut(run, k - 1);
      assert Steps(run[k - 1], run[k]);
      var step :| Enabled(run[k - 1], step) && Next(run[k - 1], step) == run[k];
      StepRunsAfterRollout(run[k - 1], step);
    }
  }

  // ---- The Job before its record -------------------------------------------------------

  // The names of all build Jobs that have been there up to `run[k]`.
  function Seen(run: seq<World>, k: nat): set<string>
    requires k < |run|
  {
    (if k == 0 then {} else Seen(run, k - 1)) + run[k].jobs.Keys
  }

  lemma {:induction false} SeenWasThere(run: seq<World>, k: nat, name: string) returns (j: nat)
    requires k < |run| && name in Seen(run, k)
    ensures j <= k && name in run[j].jobs
  {
    if name in run[k].jobs {
      j := k;
    } else {
      j := SeenWasThere(run, k - 1, name);
    }
  }

  predicate Known(seen: set<string>, build: Option<Build>)
  {
    build.Some? ==> build.value.jobName in seen
  }

  function Creates(write: Write): set<string>
  {
    if write.CreateJob? then {write.build.jobName} else {}
  }

  // What the pending writes record has a Job, or gets one from an earlier one of them.
  predicate Backed(seen: set<string>, todo: seq<Write>)
    decreases |todo|
  {
    todo != [] ==> Known(seen, Marked(todo[0])) && Backed(seen + Creates(todo[0]), todo[1..])
  }

  predicate HasJobs(w: World, seen: set<string>)
  {
    && Known(seen, w.app.status.build)
    && (w.local.Busy? ==>
          && Known(seen, w.local.app.status.build)
          && Backed(seen, w.local.todo)
          && (w.local.then_.ReadBuildJob? && !w.local.then_.isNew ==> w.local.then_.build.jobName in seen))
  }

  lemma {:induction false} BackedStays(seen: set<string>, more: set<string>, todo: seq<Write>)
    requires Backed(seen, todo) && seen <= more
    ensures Backed(more, todo)
    decreases |todo|
  {
    if todo != [] {
      BackedStays(seen + Creates(todo[0]), more + Creates(todo[0]), todo[1..]);
    }
  }

  lemma {:induction false} KnownRecordsAreBacked(seen: set<string>, todo: seq<Write>)
    requires forall i :: 0 <= i < |todo| ==> Known(seen, Marked(todo[i]))
    ensures Backed(seen, todo)
    decreases |todo|
  {
    if todo != [] {
      forall i | 0 <= i < |todo[1..]| ensures Known(seen + Creates(todo[0]), Marked(todo[1..][i])) {
        assert Known(seen, Marked(todo[i + 1]));
      }
      KnownRecordsAreBacked(seen + Creates(todo[0]), todo[1..]);
    }
  }

  lemma DecisionIsKnown(seen: set<string>, app: App, build: Build, job: Job, now: Time)
    requires build.jobName in seen
    ensures forall write :: write in Decide(app, build, job, now) ==> Known(seen, Marked(write))
  {
  }

  lemma FollowedIsBacked(seen: set<string>, app: App, build: Build, isNew: bool, found: Option<Job>, now: Time)
    requires !isNew || found.Some? ==> build.jobName in seen
    ensures Backed(seen, AfterLookup(app, build, isNew, found, now))
  {
    var todo := AfterLookup(app, build, isNew, found, now);
    if found.None? && isNew {
      NewBuildWrites(app, build, found, now);
      var more := seen + {build.jobName};
      DecisionIsKnown(more, app, build, NewJob(build), now);
      KnownRecordsAreBacked(more, todo[1..]);
      assert Creates(todo[0]) == {build.jobName};
    } else {
      if found.Some? {
        DecisionIsKnown(seen, app, build, found.value, now);
      }
      forall i | 0 <= i < |todo| ensures Known(seen, Marked(todo[i])) {
        assert todo[i] in todo;
      }
      KnownRecordsAreBacked(seen, todo);
    }
  }

  lemma StartIsBacked(seen: set<string>, app: App, now: Time)
    requires Known(seen, app.status.build)
    ensures Start(app, now).Busy? && Backed(seen, Start(app, now).todo)
    ensures
      var then_ := Start(app, now).then_;
      then_.ReadBuildJob? && !then_.isNew ==> then_.build.jobName in seen
  {
    var todo := Start(app, now).todo;
    forall i | 0 <= i < |todo| ensures Marked(todo[i]) == None {
      if app.spec.tenantValid && Annotation(app, PREVIEW_ACTION) == Some("delete") {
        assert todo == PreviewDeletion(app, now);
      }
    }
    KnownRecordsAreBacked(seen, todo);
  }

  lemma PerformKeepsJobs(w: World, seen: set<string>)
    requires HasJobs(w, seen) && Enabled(w, Perform)
    ensures HasJobs(Next(w, Perform), seen + Next(w, Perform).jobs.Keys)
  {
    var w' := Next(w, Perform);
    var first := w.local.todo[0];
    assert first.CreateJob? ==> first.build.jobName in w'.jobs.Keys;
    BackedStays(seen + Creates(first), seen + w'.jobs.Keys, w'.local.todo);
  }

  lemma SkipKeepsJobs(w: World, seen: set<string>)
    requires HasJobs(w, seen) && Enabled(w, Skip)
    ensures HasJobs(Next(w, Skip), seen)
  {
    assert seen + {} == seen;
  }

  lemma ReadKeepsJobs(w: World, step: Step, seen: set<string>)
    requires HasJobs(w, seen) && w.jobs.Keys <= seen && Enabled(w, step) && (step.Look? || step.Gated?)
    ensures HasJobs(Next(w, step), seen)
  {
    if step.Look? {
      var build := w.local.then_.build;
      var found := if build.jobName in w.jobs then Some(w.jobs[build.jobName]) else None;
      FollowedIsBacked(seen, w.local.app, build, w.local.then_.isNew, found, w.local.now);
    } else {
      KnownRecordsAreBacked(seen, Next(w, step).local.todo);
    }
  }

  lemma StepKeepsJobs(w: World, step: Step, seen: set<string>)
    requires HasJobs(w, seen) && w.jobs.Keys <= seen && Enabled(w, step)
    requires step.Begin? ==> Known(seen, step.app.status.build)
    ensures HasJobs(Next(w, step), seen + Next(w, step).jobs.Keys)
  {
    var more := seen + Next(w, step).jobs.Keys;
    if step.Perform? {
      PerformKeepsJobs(w, seen);
    } else if step.Look? || step.Gated? {
      ReadKeepsJobs(w, step, seen);
      BackedStays(seen, more, Next(w, step).local.todo);
    } else if step.Begin? {
      StartIsBacked(seen, step.app, step.now);
      BackedStays(seen, more, Next(w, step).local.todo);
    } else {
      if step.Skip? {
        SkipKeepsJobs(w, seen);
      }
      if Next(w, step).local.Busy? {
        BackedStays(seen, more, Next(w, step).local.todo);
      }
    }
  }

  predicate RecordsKnown(run: seq<World>, k: nat)
    requires k < |run|
  {
    && HasJobs(run[k], Seen(run, k))
    && forall j :: 0 <= j <= k ==> Known(Seen(run, k), run[j].app.status.build)
  }

  lemma CachedStepKeepsJobs(run: seq<World>, k: nat)
    requires k + 1 < |run| && CachedSteps(run, k) && RecordsKnown(run, k)
    ensures RecordsKnown(run, k + 1)
  {
    var w, seen := run[k], Seen(run, k);
    var step :|
      && Enabled(w, step) && Next(w, step) == run[k + 1]
      && (step.Begin? ==> exists j :: 0 <= j <= k && run[j].app == step.app);
    StepKeepsJobs(w, step, seen);
    assert Seen(run, k + 1) == seen + run[k + 1].jobs.Keys;
  }

  lemma {:induction false} RecordsStayKnown(run: seq<World>, k: nat)
    requires k < |run| && Init(run[0])
    requires forall i :: 0 <= i < k ==> CachedSteps(run, i)
    ensures RecordsKnown(run, k)
  {
    if k == 0 {
      assert run[0].app.status.build.None?;
    } else {
      RecordsStayKnown(run, k - 1);
      CachedStepKeepsJobs(run, k - 1);
    }
  }

  // Every build that the status ever names had its Job before: a record without one would
  // be taken for a build whose Job is missing.
  lemma RecordedJobsExisted(run: seq<World>, k: nat) returns (j: nat)
    requires IsCachedRun(run) && k < |run| && run[k].app.status.build.Some?
    ensures j <= k && run[k].app.status.build.value.jobName in run[j].jobs
  {
    RecordsStayKnown(run, k);
    j := SeenWasThere(run, k, run[k].app.status.build.value.jobName);
  }

  // ---- The preview before its request --------------------------------------------------

  predicate AsksForDeletion(app: App)
  {
    && app.spec.tenantValid
    && "reinhardt.dev/preview-action" in app.annotations && app.annotations["reinhardt.dev/preview-action"] == "delete"
  }

  function PreviewOf(app: App): string
  {
    app.name + "-pr-" + if "reinhardt.dev/pr-number" in app.annotations then app.annotations["reinhardt.dev/pr-number"] else ""
  }

  // The pending writes take the request away only once the preview is deleted.
  predicate ClearsLast(deleted: bool, name: string, todo: seq<Write>)
    decreases |todo|
  {
    todo != [] ==>
      && (todo[0].ClearAnnotations? ==> deleted)
      && ClearsLast(deleted || todo[0] == DeletePreview(name), name, todo[1..])
  }

  // No Job is left to delete once its record is cleared.
  predicate JobGoesFirst(todo: seq<Write>)
  {
    forall i, j :: 0 <= i < j < |todo| && todo[i].ClearBuild? ==> !todo[j].DeleteJob?
  }

  predicate DeletesInOrder(w: World)
  {
    w.local.Busy? && AsksForDeletion(w.local.app) ==>
      && w.local.then_.Return?
      && ClearsLast(PreviewOf(w.local.app) in w.deletions, PreviewOf(w.local.app), w.local.todo)
      && JobGoesFirst(w.local.todo)
  }

  lemma DeletionClearsLast(app: App, deleted: bool, now: Time)
    requires AsksForDeletion(app)
    ensures ClearsLast(deleted, PreviewOf(app), PreviewDeletion(app, now)) && JobGoesFirst(PreviewDeletion(app, now))
  {
    var todo := PreviewDeletion(app, now);
    var tail := [DeletePreview(PreviewOf(app)), ClearAnnotations];
    assert tail[1..] == [ClearAnnotations] && [ClearAnnotations][1..] == [];
    var front := todo[..|todo| - 2];
    assert todo == front + tail;
    QuietFront(deleted, PreviewOf(app), front, tail);
  }

  lemma {:induction false} QuietFront(deleted: bool, name: string, front: seq<Write>, rest: seq<Write>)
    requires forall i :: 0 <= i < |front| ==> front[i].DeleteJob? || front[i].ClearBuild?
    requires ClearsLast(deleted, name, rest)
    ensures ClearsLast(deleted, name, front + rest)
    decreases |front|
  {
    if front == [] {
      assert front + rest == rest;
    } else {
      assert (front + rest)[1..] == front[1..] + rest;
      QuietFront(deleted, name, front[1..], rest);
    }
  }

  lemma StepDeletesInOrder(w: World, step: Step)
    requires DeletesInOrder(w) && Enabled(w, step)
    ensures DeletesInOrder(Next(w, step))
  {
    if step.Begin? {
      if AsksForDeletion(step.app) {
        DeletionClearsLast(step.app, PreviewOf(step.app) in w.deletions, step.now);
      }
    } else if step.Perform? {
      assert forall name :: name in Next(w, step).deletions <==> name in w.deletions || w.local.todo[0] == DeletePreview(name);
    } else if step.Skip? {
      assert forall name :: w.local.todo[0] != DeletePreview(name);
    }
  }

  // At no point of any run is the request for a deletion about to disappear before the
  // preview was deleted, or the record of its build before its Job.
  lemma {:induction false} RequestOutlivesPreview(run: seq<World>, k: nat)
    requires IsRun(run) && k < |run|
    ensures DeletesInOrder(run[k])
    ensures
      var local := run[k].local;
      local.Busy? && AsksForDeletion(local.app) && local.todo != [] && local.todo[0].ClearAnnotations? ==>
        PreviewOf(local.app) in run[k].deletions
  {
    if k > 0 {
      RequestOutlivesPreview(run, k - 1);
      assert Steps(run[k - 1], run[k]);
      var step :| Enabled(run[k - 1], step) && Next(run[k - 1], step) == run[k];
      StepDeletesInOrder(run[k - 1], step);
    }
  }
}

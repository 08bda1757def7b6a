// Build triggers survive crashes: once a reconcile has derived a build, either the
// annotation is still there or the status names the build's Job. What can lose a
// trigger is stated exactly.
module ApplyTriggers {
  import opened Wrappers
  import opened Project
  import opened Conditions
  import opened ApplyProtocol
  import opened ApplySafety

  predicate Names(build: Build, trigger: string, job: string)
  {
    build.trigger == trigger && build.jobName == job
  }

  predicate Requests(app: App, trigger: string, job: string)
  {
    Derivable(app) && Names(Derive(app, 0).value, trigger, job)
  }

  predicate Recorded(app: App, trigger: string, job: string)
  {
    app.status.build.Some? && Names(app.status.build.value, trigger, job)
  }

  predicate Lost(w: World, trigger: string, job: string)
  {
    !Requests(w.app, trigger, job) && !Recorded(w.app, trigger, job)
  }

  // ---- What the pending writes can lose --------------------------------------------------

  predicate RecordedAfter(write: Write, recorded: bool, trigger: string, job: string)
  {
    match write
    case PatchBuild(build, _) => Names(build, trigger, job)
    case PatchStatus(kept, _, _) => if kept.Some? then Names(kept.value, trigger, job) else recorded
    case ClearBuild(_) => false
    case _ => recorded
  }

  predicate RequestedAfter(write: Write, requested: bool)
  {
    !write.ClearAnnotations? && requested
  }

  // The snapshot's build is written back, or followed, under another name.
  predicate WritesOther(app: App, trigger: string, job: string)
  {
    app.status.build.Some? && app.status.build.value.phase != Failed && !Names(app.status.build.value, trigger, job)
  }

  // At no point of the rest of the reconcile is the trigger neither requested nor
  // recorded.
  predicate SafeAhead(app: App, todo: seq<Write>, then_: Then, recorded: bool, requested: bool, trigger: string, job: string)
    decreases |todo|
  {
    && (recorded || requested)
    && if todo != [] then
         SafeAhead(app, todo[1..], then_, RecordedAfter(todo[0], recorded, trigger, job),
                   RequestedAfter(todo[0], requested), trigger, job)
       else match then_
         case Return => true
         case ReadBuildJob(build, isNew) => Names(build, trigger, job) || (!isNew && requested)
         case ReadMigration => requested || app.status.build.None? || Names(app.status.build.value, trigger, job)
  }

  predicate Held(w: World, trigger: string, job: string)
  {
    if w.local.Idle? then !Lost(w, trigger, job)
    else SafeAhead(w.local.app, w.local.todo, w.local.then_,
                   Recorded(w.app, trigger, job), Requests(w.app, trigger, job), trigger, job)
  }

  lemma SafeFirst(app: App, first: Write, rest: seq<Write>, then_: Then, recorded: bool, requested: bool, trigger: string, job: string)
    ensures SafeAhead(app, [first] + rest, then_, recorded, requested, trigger, job) <==>
      && (recorded || requested)
      && SafeAhead(app, rest, then_, RecordedAfter(first, recorded, trigger, job), RequestedAfter(first, requested), trigger, job)
  {
    assert ([first] + rest)[1..] == rest;
  }

  // Neither the status nor the image decides what the annotations derive.
  lemma RequestIgnoresStatusAndImage(app: App, status: Status, image: string, trigger: string, job: string)
    ensures
      var app' := app.(status := status, spec := app.spec.(image := image));
      Requests(app', trigger, job) == Requests(app, trigger, job)
  {
  }

  lemma EffectChangesMarks(w: World, write: Write, snapshot: App, trigger: string, job: string)
    ensures
      var app' := Effect(w, write, snapshot).app;
      && Recorded(app', trigger, job) == RecordedAfter(write, Recorded(w.app, trigger, job), trigger, job)
      && Requests(app', trigger, job) == RequestedAfter(write, Requests(w.app, trigger, job))
  {
    var app' := Effect(w, write, snapshot).app;
    if write.ClearAnnotations? {
      assert Annotation(app', BUILD_TRIGGER).None?;
    } else {
      RequestIgnoresStatusAndImage(w.app, app'.status, app'.spec.image, trigger, job);
    }
  }

  // ---- The writes that follow the lookups ------------------------------------------------

  lemma DecideIsSafe(app: App, build: Build, live: Job, now: Time, recorded: bool, requested: bool, trigger: string, job: string)
    requires recorded || requested
    requires Names(build, trigger, job) || requested
    ensures SafeAhead(app, Decide(app, build, live, now), Return, recorded, requested, trigger, job)
  {
    var todo := Decide(app, build, live, now);
    if |todo| == 2 {
      assert todo[1..] == [todo[1]] && todo[1..][1..] == [];
    } else if |todo| == 1 {
      assert todo[1..] == [];
    }
  }

  function Acceptance(app: App, build: Build, now: Time): Write
  {
    BuildPatch(app, build, Condition(Progressing, CTrue, "BuildPending", Some(now)), now)
  }

  // A new build: the Job is created if it is absent, the status is written and the
  // annotations are cleared.
  lemma NewBuildWrites(app: App, build: Build, found: Option<Job>, now: Time)
    ensures
      var rest := [Acceptance(app, build, now)]
        + ([ClearAnnotations] + Decide(app, build, if found.None? then NewJob(build) else found.value, now));
      AfterLookup(app, build, true, found, now) == if found.None? then [CreateJob(build)] + rest else rest
  {
  }

  lemma NewBuildIsSafeExactlyWhenNamed(app: App, build: Build, found: Option<Job>, now: Time, recorded: bool, requested: bool,
                                       trigger: string, job: string)
    requires recorded || requested
    ensures SafeAhead(app, AfterLookup(app, build, true, found, now), Return, recorded, requested, trigger, job) <==>
      Names(build, trigger, job)
  {
    NewBuildWrites(app, build, found, now);
    var live := if found.None? then NewJob(build) else found.value;
    var decide := Decide(app, build, live, now);
    var named := Names(build, trigger, job);
    var accept := Acceptance(app, build, now);
    if found.None? {
      SafeFirst(app, CreateJob(build), [accept] + ([ClearAnnotations] + decide), Return, recorded, requested, trigger, job);
    }
    SafeFirst(app, accept, [ClearAnnotations] + decide, Return, recorded, requested, trigger, job);
    SafeFirst(app, ClearAnnotations, decide, Return, named, requested, trigger, job);
    if named {
      DecideIsSafe(app, build, live, now, true, false, trigger, job);
    }
  }

  lemma FollowedBuildIsSafe(app: App, build: Build, found: Option<Job>, now: Time, recorded: bool, requested: bool,
                            trigger: string, job: string)
    requires recorded || requested
    requires Names(build, trigger, job) || requested
    ensures SafeAhead(app, AfterLookup(app, build, false, found, now), Return, recorded, requested, trigger, job)
  {
    var todo := AfterLookup(app, build, false, found, now);
    if found.None? {
      assert todo[1..] == [];
    } else {
      DecideIsSafe(app, build, found.value, now, recorded, requested, trigger, job);
      assert todo == Decide(app, build, found.value, now);
    }
  }

  lemma MissingJobOverwrites(app: App, build: Build, now: Time, recorded: bool, trigger: string, job: string)
    requires !Names(build, trigger, job)
    ensures !SafeAhead(app, AfterLookup(app, build, false, None, now), Return, recorded, false, trigger, job)
  {
    var todo := AfterLookup(app, build, false, None, now);
    assert todo[1..] == [];
  }

  lemma GateWritesKept(app: App, gate: Gate, ready: bool, children: seq<Condition>, now: Time, recorded: bool, requested: bool,
                       trigger: string, job: string)
    requires recorded || requested
    ensures SafeAhead(app, AfterGate(app, gate, ready, children, now), Return, recorded, requested, trigger, job) <==>
      requested || app.status.build.None? || Names(app.status.build.value, trigger, job)
  {
    var todo := AfterGate(app, gate, ready, children, now);
    var write := todo[|todo| - 1];
    SafeFirst(app, write, [], Return, recorded, requested, trigger, job);
    assert [write] + [] == [write];
    if |todo| == 2 {
      SafeFirst(app, todo[0], [write], Return, recorded, requested, trigger, job);
      assert todo == [todo[0]] + [write];
    } else {
      assert todo == [write];
    }
  }

  // ---- A held trigger stays, whatever the operator and the Jobs do -----------------------

  // Neither a new reconcile nor the user.
  predicate Continues(step: Step)
  {
    !step.Begin? && !step.UserAnnotates? && !step.UserEdits?
  }

  lemma LookHolds(w: World, trigger: string, job: string)
    requires Held(w, trigger, job) && Enabled(w, Look)
    ensures Held(Next(w, Look), trigger, job)
  {
    var build := w.local.then_.build;
    var found := if build.jobName in w.jobs then Some(w.jobs[build.jobName]) else None;
    var recorded, requested := Recorded(w.app, trigger, job), Requests(w.app, trigger, job);
    if w.local.then_.isNew {
      NewBuildIsSafeExactlyWhenNamed(w.local.app, build, found, w.local.now, recorded, requested, trigger, job);
    } else {
      FollowedBuildIsSafe(w.local.app, build, found, w.local.now, recorded, requested, trigger, job);
    }
  }

  lemma ContinuedStepHolds(w: World, step: Step, trigger: string, job: string)
    requires Held(w, trigger, job) && Enabled(w, step) && Continues(step)
    ensures Held(Next(w, step), trigger, job)
  {
    if step.Perform? {
      EffectChangesMarks(w, w.local.todo[0], w.local.app, trigger, job);
    } else if step.Look? {
      LookHolds(w, trigger, job);
    } else if step.Gated? {
      GateWritesKept(w.local.app, MigrationGate(w, w.local.app, step.rerun), step.ready, step.children, w.local.now,
                     Recorded(w.app, trigger, job), Requests(w.app, trigger, job), trigger, job);
    }
  }

  ghost predicate ContinuedSteps(w: World, w': World)
  {
    exists step :: Enabled(w, step) && Continues(step) && Next(w, step) == w'
  }

  ghost predicate IsContinuation(path: seq<World>)
  {
    path != [] && forall i :: 0 <= i < |path| - 1 ==> ContinuedSteps(path[i], path[i + 1])
  }

  lemma {:induction false} HeldTriggerIsNotLost(path: seq<World>, i: nat, trigger: string, job: string)
    requires IsContinuation(path) && i < |path| && Held(path[0], trigger, job)
    ensures Held(path[i], trigger, job) && !Lost(path[i], trigger, job)
  {
    if i > 0 {
      HeldTriggerIsNotLost(path, i - 1, trigger, job);
      assert ContinuedSteps(path[i - 1], path[i]);
      var step :| Enabled(path[i - 1], step) && Continues(step) && Next(path[i - 1], step) == path[i];
      ContinuedStepHolds(path[i - 1], step, trigger, job);
    }
  }

  lemma Prepend(w: World, step: Step, rest: seq<World>) returns (path: seq<World>)
    requires Enabled(w, step) && Continues(step) && IsContinuation(rest) && rest[0] == Next(w, step)
    ensures IsContinuation(path) && path[0] == w && path[|path| - 1] == rest[|rest| - 1]
  {
    path := [w] + rest;
    assert ContinuedSteps(w, rest[0]);
    forall i | 0 <= i < |path| - 1 ensures ContinuedSteps(path[i], path[i + 1]) {
      if i > 0 {
        assert ContinuedSteps(rest[i - 1], rest[i]);
      }
    }
  }

  function StepsLeft(local: Local): nat
  {
    if local.Idle? || local.then_.Return? then 0 else 1
  }

  function TodoLeft(local: Local): nat
  {
    if local.Idle? then 0 else |local.todo|
  }

  // And a trigger that is not held is lost in some continuation.
  lemma {:induction false} UnheldTriggerCanBeLost(w: World, trigger: string, job: string) returns (path: seq<World>)
    requires !Held(w, trigger, job)
    ensures IsContinuation(path) && path[0] == w && Lost(path[|path| - 1], trigger, job)
    decreases StepsLeft(w.local), TodoLeft(w.local), 1
  {
    if Lost(w, trigger, job) {
      path := [w];
    } else if w.local.todo != [] {
      path := WriteCanLose(w, trigger, job);
    } else if w.local.then_.ReadBuildJob? {
      path := LookCanLose(w, trigger, job);
    } else {
      path := GateCanLose(w, trigger, job);
    }
  }

  lemma {:induction false} GateCanLose(w: World, trigger: string, job: string) returns (path: seq<World>)
    requires !Held(w, trigger, job) && !Lost(w, trigger, job)
    requires w.local.Busy? && w.local.todo == [] && w.local.then_.ReadMigration?
    ensures IsContinuation(path) && path[0] == w && Lost(path[|path| - 1], trigger, job)
    decreases StepsLeft(w.local), TodoLeft(w.local), 0
  {
    var gated := Gated(false, false, []);
    GateWritesKept(w.local.app, MigrationGate(w, w.local.app, false), false, [], w.local.now,
                   Recorded(w.app, trigger, job), Requests(w.app, trigger, job), trigger, job);
    var rest := UnheldTriggerCanBeLost(Next(w, gated), trigger, job);
    path := Prepend(w, gated, rest);
  }

  lemma {:induction false} WriteCanLose(w: World, trigger: string, job: string) returns (path: seq<World>)
    requires !Held(w, trigger, job) && !Lost(w, trigger, job) && w.local.Busy? && w.local.todo != []
    ensures IsContinuation(path) && path[0] == w && Lost(path[|path| - 1], trigger, job)
    decreases StepsLeft(w.local), TodoLeft(w.local), 0
  {
    var write := w.local.todo[0];
    EffectChangesMarks(w, write, w.local.app, trigger, job);
    if Accepted(w, write) {
      var rest := UnheldTriggerCanBeLost(Next(w, Perform), trigger, job);
      path := Prepend(w, Perform, rest);
    } else {
      var gone := JobGone(write.build.jobName);
      var w' := Next(w, gone);
      EffectChangesMarks(w', write, w.local.app, trigger, job);
      var rest := UnheldTriggerCanBeLost(Next(w', Perform), trigger, job);
      rest := Prepend(w', Perform, rest);
      path := Prepend(w, gone, rest);
    }
  }

  lemma {:induction false} LookCanLose(w: World, trigger: string, job: string) returns (path: seq<World>)
    requires !Held(w, trigger, job) && !Lost(w, trigger, job)
    requires w.local.Busy? && w.local.todo == [] && w.local.then_.ReadBuildJob?
    ensures IsContinuation(path) && path[0] == w && Lost(path[|path| - 1], trigger, job)
    decreases StepsLeft(w.local), TodoLeft(w.local), 0
  {
    var build, isNew := w.local.then_.build, w.local.then_.isNew;
    var gone := JobGone(build.jobName);
    var w' := Next(w, gone);
    if isNew {
      NewBuildIsSafeExactlyWhenNamed(w.local.app, build, None, w.local.now, Recorded(w.app, trigger, job),
                                     Requests(w.app, trigger, job), trigger, job);
    } else {
      MissingJobOverwrites(w.local.app, build, w.local.now, Recorded(w.app, trigger, job), trigger, job);
    }
    var rest := UnheldTriggerCanBeLost(Next(w', Look), trigger, job);
    rest := Prepend(w', Look, rest);
    path := Prepend(w, gone, rest);
  }

  // ---- Which snapshots can lose a trigger ------------------------------------------------

  predicate CancelsBuild(app: App)
  {
    var pr := if Annotation(app, PR_NUMBER).Some? then Annotation(app, PR_NUMBER).value else "";
    app.status.build.Some? && PreviewBuildMatches(app.status.build.value, pr, PreviewName(app.name, pr))
  }

  // By the annotations and the build of the snapshot, and by whether the stored status
  // names the Job and the stored annotations still request it.
  predicate CanLose(app: App, recorded: bool, requested: bool, trigger: string, job: string)
  {
    app.spec.tenantValid &&
    if Annotation(app, PREVIEW_ACTION) == Some("delete") then !recorded || CancelsBuild(app)
    else if IgnoredRequest(app) then !recorded || WritesOther(app, trigger, job)
    else if Derivable(app) then !Requests(app, trigger, job)
    else !requested && WritesOther(app, trigger, job)
  }

  lemma DeletionIsSafeExactlyWhen(app: App, now: Time, recorded: bool, requested: bool, trigger: string, job: string)
    requires recorded || requested
    ensures SafeAhead(app, PreviewDeletion(app, now), Return, recorded, requested, trigger, job) <==>
      recorded && !CancelsBuild(app)
  {
    var pr := if Annotation(app, PR_NUMBER).Some? then Annotation(app, PR_NUMBER).value else "";
    var name := PreviewName(app.name, pr);
    var tail := [DeletePreview(name)] + [ClearAnnotations];
    SafeTail(app, name, recorded, requested, trigger, job);
    if CancelsBuild(app) {
      var clear := ClearBuild(PreviewDeletedConditions(app.status.conditions, now));
      SafeTail(app, name, false, requested, trigger, job);
      SafeFirst(app, clear, tail, Return, recorded, requested, trigger, job);
      var jobName := app.status.build.value.jobName;
      if Blank(jobName) {
        assert PreviewDeletion(app, now) == [clear] + tail;
      } else {
        SafeFirst(app, DeleteJob(jobName), [clear] + tail, Return, recorded, requested, trigger, job);
        assert PreviewDeletion(app, now) == [DeleteJob(jobName)] + ([clear] + tail);
      }
    } else {
      assert PreviewDeletion(app, now) == tail;
    }
  }

  lemma SafeTail(app: App, name: string, recorded: bool, requested: bool, trigger: string, job: string)
    ensures SafeAhead(app, [DeletePreview(name)] + [ClearAnnotations], Return, recorded, requested, trigger, job) <==> recorded
  {
    SafeFirst(app, DeletePreview(name), [ClearAnnotations], Return, recorded, requested, trigger, job);
    SafeFirst(app, ClearAnnotations, [], Return, recorded, requested, trigger, job);
    assert [ClearAnnotations] + [] == [ClearAnnotations];
  }

  lemma StartIsSafeExactlyWhen(app: App, now: Time, recorded: bool, requested: bool, trigger: string, job: string)
    requires recorded || requested
    ensures Start(app, now).Busy?
    ensures SafeAhead(app, Start(app, now).todo, Start(app, now).then_, recorded, requested, trigger, job) <==>
      !CanLose(app, recorded, requested, trigger, job)
  {
    assert Derive(app, now).Some? == Derivable(app);
    if app.spec.tenantValid && Annotation(app, PREVIEW_ACTION) == Some("delete") {
      DeletionIsSafeExactlyWhen(app, now, recorded, requested, trigger, job);
    } else if app.spec.tenantValid && IgnoredRequest(app) {
      assert Start(app, now).todo == [ClearAnnotations] && [ClearAnnotations][1..] == [];
    } else if !app.spec.tenantValid {
      assert Start(app, now).todo[1..] == [];
    }
  }

  // A reconcile from a snapshot, whoever it is interrupted by, can lose the trigger if
  // and only if the snapshot asks for a deletion that does, is an ignored request, or
  // derives, follows or keeps a build of another name.
  lemma SnapshotLosesTriggerExactlyWhen(w: World, app: App, now: Time, trigger: string, job: string)
    requires w.local.Idle? && Enabled(w, Begin(app, now)) && !Lost(w, trigger, job)
    ensures Held(Next(w, Begin(app, now)), trigger, job) <==>
      !CanLose(app, Recorded(w.app, trigger, job), Requests(w.app, trigger, job), trigger, job)
  {
    StartIsSafeExactlyWhen(app, now, Recorded(w.app, trigger, job), Requests(w.app, trigger, job), trigger, job);
  }

  lemma StaleSnapshotLosesTrigger(w: World, stale: App, now: Time, trigger: string, job: string) returns (path: seq<World>)
    requires w.local.Idle? && Enabled(w, Begin(stale, now)) && !Lost(w, trigger, job)
    requires CanLose(stale, Recorded(w.app, trigger, job), Requests(w.app, trigger, job), trigger, job)
    ensures IsContinuation(path) && path[0] == Next(w, Begin(stale, now)) && Lost(path[|path| - 1], trigger, job)
  {
    SnapshotLosesTriggerExactlyWhen(w, stale, now, trigger, job);
    path := UnheldTriggerCanBeLost(Next(w, Begin(stale, now)), trigger, job);
  }

  // A snapshot, fresh or stale, that asks for this build or for none.
  predicate Pinned(app: App, trigger: string, job: string)
  {
    && (Annotation(app, BUILD_TRIGGER).None? || Requests(app, trigger, job))
    && Annotation(app, PREVIEW_ACTION) != Some("delete")
    && (Requests(app, trigger, job) || Recorded(app, trigger, job))
  }

  lemma PinnedSnapshotIsSafe(app: App, recorded: bool, requested: bool, trigger: string, job: string)
    requires Pinned(app, trigger, job) && (recorded || requested)
    ensures !CanLose(app, recorded, requested, trigger, job)
  {
  }

  // ---- Which edits can lose a trigger ----------------------------------------------------

  function Edited(w: World, step: Step): App
    requires step.UserAnnotates? || step.UserEdits?
  {
    if step.UserAnnotates? then w.app.(annotations := step.annotations) else w.app.(spec := step.spec)
  }

  // The request stays, or the status names the Job and the pending writes do without
  // the request.
  predicate Respects(w: World, step: Step, trigger: string, job: string)
    requires step.UserAnnotates? || step.UserEdits?
  {
    || !Requests(w.app, trigger, job) || Requests(Edited(w, step), trigger, job)
    || if w.local.Idle? then Recorded(w.app, trigger, job)
       else SafeAhead(w.local.app, w.local.todo, w.local.then_, Recorded(w.app, trigger, job), false, trigger, job)
  }

  lemma {:induction false} RequestNeverHurts(app: App, todo: seq<Write>, then_: Then, recorded: bool, trigger: string, job: string)
    requires SafeAhead(app, todo, then_, recorded, false, trigger, job)
    ensures SafeAhead(app, todo, then_, recorded, true, trigger, job)
    decreases |todo|
  {
    if todo != [] && !todo[0].ClearAnnotations? {
      RequestNeverHurts(app, todo[1..], then_, RecordedAfter(todo[0], recorded, trigger, job), trigger, job);
    }
  }

  lemma EditKeepsTriggerExactlyWhen(w: World, step: Step, trigger: string, job: string)
    requires Held(w, trigger, job) && (step.UserAnnotates? || step.UserEdits?)
    ensures Held(Next(w, step), trigger, job) <==> Respects(w, step, trigger, job)
  {
    if w.local.Busy? && !Requests(w.app, trigger, job) {
      RequestNeverHurts(w.local.app, w.local.todo, w.local.then_, Recorded(w.app, trigger, job), trigger, job);
    }
  }

  // ---- Main result -----------------------------------------------------------------------

  predicate Keeping(w: World, step: Step, trigger: string, job: string)
  {
    && (step.Begin? ==> !CanLose(step.app, Recorded(w.app, trigger, job), Requests(w.app, trigger, job), trigger, job))
    && (step.UserAnnotates? || step.UserEdits? ==> Respects(w, step, trigger, job))
  }

  lemma KeepingStepHoldsExactlyWhen(w: World, step: Step, trigger: string, job: string)
    requires Held(w, trigger, job) && Enabled(w, step)
    ensures Held(Next(w, step), trigger, job) <==> Keeping(w, step, trigger, job)
  {
    if step.Begin? {
      SnapshotLosesTriggerExactlyWhen(w, step.app, step.now, trigger, job);
    } else if step.UserAnnotates? || step.UserEdits? {
      EditKeepsTriggerExactlyWhen(w, step, trigger, job);
    } else {
      ContinuedStepHolds(w, step, trigger, job);
    }
  }

  ghost predicate KeepingSteps(w: World, w': World, trigger: string, job: string)
  {
    exists step: Step :: Enabled(w, step) && Next(w, step) == w' && Keeping(w, step, trigger, job)
  }

  // Through any crashes, Job deletions, reconciles and edits, the trigger is on the
  // Project or its Job is in the status, as long as no reconcile starts from a snapshot
  // and no edit is made that can lose it. Every such snapshot and every such edit does
  // lose it in some continuation, by `UnheldTriggerCanBeLost`.
  lemma {:induction false} DerivedTriggersAreNeverLost(run: seq<World>, k: nat, trigger: string, job: string)
    requires k < |run| && Held(run[0], trigger, job)
    requires forall i :: 0 <= i < k ==> KeepingSteps(run[i], run[i + 1], trigger, job)
    ensures Held(run[k], trigger, job)
    ensures Requests(run[k].app, trigger, job) || Recorded(run[k].app, trigger, job)
  {
    if k > 0 {
      DerivedTriggersAreNeverLost(run, k - 1, trigger, job);
      assert KeepingSteps(run[k - 1], run[k], trigger, job);
      var step: Step :|
        Enabled(run[k - 1], step) && Next(run[k - 1], step) == run[k] && Keeping(run[k - 1], step, trigger, job);
      KeepingStepHoldsExactlyWhen(run[k - 1], step, trigger, job);
    }
  }

  // ---- Two ways to lose one --------------------------------------------------------------

  // Disabling previews withdraws a derived preview request: the next reconcile
  // clears the annotations although no status names the Job yet.
  lemma DisablingPreviewsLosesTrigger(w: World, now: Time)
    requires w.local.Idle? && w.app.spec.tenantValid && w.app.status.build.None?
    requires Derivable(w.app) && PreviewPrNumber(w.app).Some?
    ensures
      var spec := w.app.spec.(source := Some(w.app.spec.source.value.(previews := false)));
      var w1 := Next(w, UserEdits(spec));
      var w2 := Next(w1, Begin(w1.app, now));
      && Enabled(w2, Perform)
      && Annotation(Next(w2, Perform).app, BUILD_TRIGGER).None?
      && Next(w2, Perform).app.status.build.None?
  {
    var spec := w.app.spec.(source := Some(w.app.spec.source.value.(previews := false)));
    var w1 := Next(w, UserEdits(spec));
    assert IgnoredRequest(w1.app);
    var w2 := Next(w1, Begin(w1.app, now));
    assert w2.local.todo == [ClearAnnotations] && Accepted(w2, ClearAnnotations);
  }

  lemma ExtendRun(run: seq<World>, step: Step) returns (longer: seq<World>)
    requires IsRun(run) && Enabled(run[|run| - 1], step)
    ensures IsRun(longer) && longer == run + [Next(run[|run| - 1], step)]
  {
    longer := run + [Next(run[|run| - 1], step)];
    forall i | 0 <= i < |longer| - 1 ensures Steps(longer[i], longer[i + 1]) {
      if i < |run| - 1 {
        assert Steps(run[i], run[i + 1]);
      } else {
        assert Enabled(run[i], step) && Next(run[i], step) == longer[i + 1];
      }
    }
  }

  // A first trigger, up to the writes that accept it.
  lemma FirstTriggerIsLookedUp(start: World, now: Time, first: string) returns (run: seq<World>)
    requires Init(start) && start.app.spec.source.Some? && start.app.spec.tenantValid
    ensures IsRun(run) && |run| == 4 && run[0] == start
    ensures
      var app := start.app.(annotations := map[BUILD_TRIGGER := first]);
      var build := Derive(app, now);
      && build.Some? && build.value.trigger == first
      && run[3] == start.(app := app, local := Busy(app, now, AfterLookup(app, build.value, true, None, now), Return))
  {
    run := [start];
    run := ExtendRun(run, UserAnnotates(map[BUILD_TRIGGER := first]));
    var app := run[1].app;
    run := ExtendRun(run, Begin(app, now));
    assert run[2].local == Busy(app, now, [], ReadBuildJob(Derive(app, now).value, true));
    run := ExtendRun(run, Look);
  }

  lemma FirstTriggerIsRecorded(start: World, now: Time, first: string) returns (run: seq<World>)
    requires Init(start) && start.app.spec.source.Some? && start.app.spec.tenantValid
    ensures IsRun(run) && |run| == 6 && run[0] == start
    ensures
      var w := run[5];
      && w.local.Busy? && w.local.todo != [] && w.local.todo[0] == ClearAnnotations
      && w.app.spec == start.app.spec
      && w.app.status.build.Some? && w.app.status.build.value.trigger == first
  {
    run := FirstTriggerIsLookedUp(start, now, first);
    var app := run[3].app;
    NewBuildWrites(app, Derive(app, now).value, None, now);
    run := ExtendRun(run, Perform);
    assert run[4].local.todo[0] == Acceptance(app, Derive(app, now).value, now);
    run := ExtendRun(run, Perform);
  }

  // The annotations are cleared without a precondition: a trigger that is set between
  // the two writes that accept an earlier one disappears before any reconcile derives it.
  lemma LateTriggerIsWiped(start: World, now: Time, first: string, second: string) returns (run: seq<World>)
    requires Init(start) && start.app.spec.source.Some? && start.app.spec.tenantValid
    ensures IsRun(run) && |run| == 8 && run[0] == start
    ensures run[6].app.annotations == map[BUILD_TRIGGER := second] && Derivable(run[6].app)
    ensures Annotation(run[7].app, BUILD_TRIGGER).None?
    ensures run[7].app.status.build.Some? && run[7].app.status.build.value.trigger == first
  {
    run := FirstTriggerIsRecorded(start, now, first);
    run := ExtendRun(run, UserAnnotates(map[BUILD_TRIGGER := second]));
    run := ExtendRun(run, Perform);
  }
}

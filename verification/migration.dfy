// The migration Job of one deployment revision: `reconcile_migration_job_resource`
// as a protocol between the operator, the Job controller and other actors.
module Migration {
  import opened Wrappers
  import R = RedisProvenance
  import S = RedisSafety

  type Uid = R.Uid

  datatype Job = Job(
    uid: nat,
    stamp: Option<Uid>,  // Redis credentials UID in the Pod template
    succeeded: nat,
    complete: bool,      // condition Complete=True
    failed: bool)        // condition Failed=True

  datatype Gate = NotRequired | Running | Succeeded | Failed

  function Outcome(job: Job): Gate
  {
    if job.succeeded > 0 || job.complete then Succeeded
    else if job.failed then Failed
    else Running
  }

  // `migration_job_has_stale_redis_credentials`
  predicate Stale(job: Job, provenance: Option<Uid>)
  {
    provenance.Some? && job.stamp.Some? && job.stamp != provenance
  }

  datatype Local =
    | Idle
    | Read(provenance: Option<Uid>, seen: Option<Job>)

  datatype World = World(
    job: Option<Job>,
    nextUid: nat,
    local: Local,
    gates: seq<Option<Uid>>,    // provenance of every gate so far
    created: seq<Option<Uid>>,  // stamps of the Jobs the operator created
    rerun: seq<Job>)            // Jobs as they were when the rerun rule deleted them

  datatype Step =
    | Begin(provenance: Option<Uid>)  // a reconcile reaches the gate and reads the Job
    | Act                             // its remaining API call, if any, succeeds
    | Abort                           // that call fails, or the operator crashes
    | Progress(job: Job)              // the Job controller
    | ForeignCreate(stamp: Option<Uid>)
    | ForeignDelete

  // The Job controller never revises an outcome.
  predicate Advances(job: Job, job': Job)
  {
    && job'.uid == job.uid && job'.stamp == job.stamp
    && (Outcome(job) == Succeeded ==> Outcome(job') == Succeeded)
    && (Outcome(job) == Failed ==> job' == job)
  }

  predicate Enabled(w: World, step: Step)
  {
    match step
    case Begin(_) => w.local.Idle?
    case Act => w.local.Read?
    case Abort => true
    case Progress(job) => w.job.Some? && Advances(w.job.value, job)
    case ForeignCreate(_) => w.job.None?
    case ForeignDelete => true
  }

  function NewJob(uid: nat, stamp: Option<Uid>): Job
  {
    Job(uid, stamp, 0, false, false)
  }

  function Next(w: World, step: Step): World
    requires Enabled(w, step)
  {
    match step
    case Begin(provenance) => w.(local := Read(provenance, w.job), gates := w.gates + [provenance])
    case Act =>
      var w' := w.(local := Idle);
      (match w.local.seen
       case None =>
         if w.job.Some? then w'
         else w'.(job := Some(NewJob(w.nextUid, w.local.provenance)), nextUid := w.nextUid + 1,
                  created := w.created + [w.local.provenance])
       case Some(seen) =>
         if Outcome(seen) == Failed && Stale(seen, w.local.provenance)
            && w.job.Some? && w.job.value.uid == seen.uid
         then w'.(job := None, rerun := w.rerun + [w.job.value])
         else w')
    case Abort => w.(local := Idle)
    case Progress(job) => w.(job := Some(job))
    case ForeignCreate(stamp) => w.(job := Some(NewJob(w.nextUid, stamp)), nextUid := w.nextUid + 1)
    case ForeignDelete => w.(job := None)
  }

  predicate Init(w: World)
  {
    w.local.Idle? && w.gates == [] && w.created == [] && w.rerun == [] && w.job.None?
  }

  ghost predicate Steps(w: World, w': World)
  {
    exists step :: Enabled(w, step) && Next(w, step) == w'
  }

  ghost predicate IsRun(run: seq<World>)
  {
    && run != [] && Init(run[0])
    && forall i :: 0 <= i < |run| - 1 ==> Steps(run[i], run[i + 1])
  }

  // ---- No running or succeeded Job is deleted by the rerun rule --------------------

  predicate OnlyFailuresRerun(w: World)
  {
    && (w.job.Some? ==> w.job.value.uid < w.nextUid)
    && (w.local.Read? && w.local.seen.Some? ==>
          var seen := w.local.seen.value;
          && seen.uid < w.nextUid
          && (w.job.Some? && w.job.value.uid == seen.uid && Outcome(seen) == Failed ==> w.job.value == seen))
    && (forall i :: 0 <= i < |w.rerun| ==>
          var job := w.rerun[i];
          job.failed && !job.complete && job.succeeded == 0 && job.stamp.Some?)
  }

  lemma {:induction false} RerunDeletesOnlyFailures(run: seq<World>, k: nat)
    requires IsRun(run) && k < |run|
    ensures OnlyFailuresRerun(run[k])
  {
    if k > 0 {
      RerunDeletesOnlyFailures(run, k - 1);
      assert Steps(run[k - 1], run[k]);
    }
  }

  // ---- A failure with other credentials is rerun --------------------------------------

  // The gate of one reconcile, when nothing interferes and its call succeeds.
  function Gated(w: World, provenance: Option<Uid>): World
    requires w.local.Idle?
  {
    Next(Next(w, Begin(provenance)), Act)
  }

  predicate FailedJob(job: Job)
  {
    job.failed && !job.complete && job.succeeded == 0
  }

  // A failed Job whose stamp is another UID than the provenance is gone after one gate,
  // and after a second one a new Job with that UID is there.
  lemma NewCredentialsRerunFailure(w: World, stamp: Uid, uid: Uid)
    requires w.local.Idle? && w.job.Some? && FailedJob(w.job.value)
    requires w.job.value.stamp == Some(stamp) && stamp != uid
    ensures
      var once := Gated(w, Some(uid));
      && once.local.Idle? && once.job.None? && once.rerun == w.rerun + [w.job.value] && once.created == w.created
      && var twice := Gated(once, Some(uid));
         && twice.job == Some(Job(w.nextUid, Some(uid), 0, false, false)) && twice.local.Idle?
         && twice.created == w.created + [Some(uid)] && twice.rerun == once.rerun
  {
  }

  // Every other Job that is there stays as it is: a success, a Job in progress, and a
  // failure without a stamp, with the current one, or without credentials to compare.
  lemma GateKeepsOtherJobs(w: World, provenance: Option<Uid>)
    requires w.local.Idle? && w.job.Some?
    requires !FailedJob(w.job.value) || w.job.value.stamp.None? || provenance.None? || w.job.value.stamp == provenance
    ensures
      var w' := Gated(w, provenance);
      w'.job == w.job && w'.rerun == w.rerun && w'.created == w.created
  {
  }

  // A deletion of the rerun rule, in any run, is of the very Job that this reconcile read
  // as failed with a stamp other than the provenance it was given.
  lemma RerunIsOfJobRead(run: seq<World>, k: nat, step: Step)
    requires IsRun(run) && k < |run| && Enabled(run[k], step) && !step.ForeignDelete?
    requires run[k].job.Some? && Next(run[k], step).job.None?
    ensures
      var w := run[k];
      && step.Act? && w.local.Read? && w.local.seen == w.job
      && FailedJob(w.job.value) && w.job.value.stamp.Some? && w.local.provenance.Some?
      && w.job.value.stamp.value != w.local.provenance.value
  {
    RerunDeletesOnlyFailures(run, k);
  }

  // ---- Reruns are bounded by credential regenerations ------------------------------

  // Provenance moves to newer Secrets only, see `RedisProvenanceIsOrderly`.
  predicate Orderly(gates: seq<Option<Uid>>)
  {
    forall i, j :: 0 <= i < j < |gates| && gates[i].Some? && gates[j].Some? ==> gates[i].value <= gates[j].value
  }

  predicate Distinct(stamps: seq<Option<Uid>>)
  {
    forall i, j :: 0 <= i < j < |stamps| ==> stamps[i] != stamps[j]
  }

  // Stamps increase, and an unstamped Job can only be the last one.
  predicate Increasing(stamps: seq<Option<Uid>>)
  {
    forall i, j :: 0 <= i < j < |stamps| ==>
      stamps[i].Some? && (stamps[j].Some? ==> stamps[i].value < stamps[j].value)
  }

  predicate Outdated(w: World, stamp: Option<Uid>)
  {
    stamp.Some? && exists g :: 0 <= g < |w.gates| && w.gates[g].Some? && w.gates[g].value > stamp.value
  }

  // Every stamp but the newest is outdated; the newest is either still on the
  // Job or outdated as well.
  predicate Superseded(w: World)
  {
    && Increasing(w.created)
    && (forall i :: 0 <= i < |w.created| ==> w.created[i] in w.gates)
    && (w.local.Read? ==> w.gates != [] && w.gates[|w.gates| - 1] == w.local.provenance)
    && (w.created != [] && w.job.None? ==> Outdated(w, w.created[|w.created| - 1]))
    && (w.created != [] && w.job.Some? ==>
          w.job.value.stamp == w.created[|w.created| - 1] || Outdated(w, w.created[|w.created| - 1]))
    && (w.local.Read? && w.local.seen.Some? && w.job.Some? && w.job.value.uid == w.local.seen.value.uid ==>
          w.job.value.stamp == w.local.seen.value.stamp)
    && (w.job.Some? ==> w.job.value.uid < w.nextUid)
    && (w.local.Read? && w.local.seen.Some? ==> w.local.seen.value.uid < w.nextUid)
  }

  // A deletion by somebody else does no harm unless the Job carries the newest stamp and
  // nothing newer has been seen.
  predicate HarmlessDeletion(w: World)
  {
    w.job.Some? && w.created != [] && w.job.value.stamp == w.created[|w.created| - 1] ==> Outdated(w, w.job.value.stamp)
  }

  predicate Allowed(w: World, step: Step)
  {
    Enabled(w, step) && (step.ForeignDelete? ==> HarmlessDeletion(w))
  }

  ghost predicate Harmless(w: World, w': World)
  {
    exists step :: Allowed(w, step) && Next(w, step) == w'
  }

  ghost predicate IsHarmlessRun(run: seq<World>)
  {
    && run != [] && Init(run[0])
    && forall i :: 0 <= i < |run| - 1 ==> Harmless(run[i], run[i + 1])
  }

  lemma OutdatedStays(w: World, w': World, stamp: Option<Uid>)
    requires Outdated(w, stamp) && w.gates <= w'.gates
    ensures Outdated(w', stamp)
  {
    var g :| 0 <= g < |w.gates| && w.gates[g].Some? && w.gates[g].value > stamp.value;
    assert w'.gates[g] == w.gates[g];
  }

  lemma ActKeepsSuperseded(w: World)
    requires Superseded(w) && Enabled(w, Act) && Orderly(w.gates)
    ensures Superseded(Next(w, Act))
  {
    var w' := Next(w, Act);
    var last := |w.gates| - 1;
    if w'.created != w.created && w.created != [] {
      var s := w.created[|w.created| - 1];
      var g :| 0 <= g < |w.gates| && w.gates[g].Some? && w.gates[g].value > s.value;
      assert w.gates[last].Some? && g < last ==> w.gates[g].value <= w.gates[last].value;
    }
    if w'.created == w.created && w.created != [] {
      var s := w.created[|w.created| - 1];
      if w'.job.None? && w.job.Some? && w.job.value.stamp == s {
        var c :| 0 <= c < |w.gates| && w.gates[c] == s;
        assert c < last ==> w.gates[c].value <= w.gates[last].value;
        assert w.gates[last].value > s.value;
      }
      if Outdated(w, s) {
        OutdatedStays(w, w', s);
      }
    }
  }

  lemma StepKeepsSuperseded(w: World, step: Step)
    requires Superseded(w) && Allowed(w, step) && Orderly(w.gates)
    ensures Superseded(Next(w, step))
  {
    if step.Act? {
      ActKeepsSuperseded(w);
    } else if w.created != [] && Outdated(w, w.created[|w.created| - 1]) {
      OutdatedStays(w, Next(w, step), w.created[|w.created| - 1]);
    }
  }

  lemma OrderlyPrefix(gates: seq<Option<Uid>>, longer: seq<Option<Uid>>)
    requires gates <= longer && Orderly(longer)
    ensures Orderly(gates)
  {
    forall i, j | 0 <= i < j < |gates| && gates[i].Some? && gates[j].Some? ensures gates[i].value <= gates[j].value {
      assert gates[i] == longer[i] && gates[j] == longer[j];
    }
  }

  lemma {:induction false} HarmlessRunsSupersede(run: seq<World>, k: nat)
    requires IsHarmlessRun(run) && k < |run| && Orderly(run[k].gates)
    ensures Superseded(run[k])
  {
    if k > 0 {
      assert Harmless(run[k - 1], run[k]);
      var step :| Allowed(run[k - 1], step) && Next(run[k - 1], step) == run[k];
      OrderlyPrefix(run[k - 1].gates, run[k].gates);
      HarmlessRunsSupersede(run, k - 1);
      StepKeepsSuperseded(run[k - 1], step);
    }
  }

  function Values(stamps: seq<Option<Uid>>): set<Option<Uid>>
  {
    set s | s in stamps
  }

  lemma {:induction false} DistinctCount(stamps: seq<Option<Uid>>)
    requires Distinct(stamps)
    ensures |Values(stamps)| == |stamps|
  {
    if stamps != [] {
      DistinctCount(stamps[1..]);
      assert stamps[0] !in stamps[1..];
      assert Values(stamps) == {stamps[0]} + Values(stamps[1..]);
    }
  }

  lemma SubsetSize(a: set<Option<Uid>>, b: set<Option<Uid>>)
    requires a <= b
    ensures |a| <= |b|
  {
    assert b == a + (b - a);
  }

  // One Job per credential generation at most: no stamp is used twice, an
  // unstamped Job is never followed by another one, and the number of Jobs is at
  // most the number of different provenance values the gates saw.
  lemma RerunsBoundedByRegenerations(run: seq<World>, k: nat)
    requires IsHarmlessRun(run) && k < |run| && Orderly(run[k].gates)
    ensures Distinct(run[k].created)
    ensures forall i :: 0 <= i < |run[k].created| - 1 ==> run[k].created[i].Some?
    ensures |run[k].created| <= |Values(run[k].gates)|
  {
    HarmlessRunsSupersede(run, k);
    DistinctCount(run[k].created);
    SubsetSize(Values(run[k].created), Values(run[k].gates));
  }

  // What the gates of one revision received, in order.
  function GatesOf(visits: seq<R.Visit>, revision: string): seq<Option<Uid>>
  {
    if visits == [] then []
    else
      var last := visits[|visits| - 1];
      GatesOf(visits[..|visits| - 1], revision) + if last.revision == revision then [last.provenance] else []
  }

  lemma {:induction false} GatesComeFromVisits(visits: seq<R.Visit>, revision: string, g: nat) returns (v: nat)
    requires g < |GatesOf(visits, revision)|
    ensures v < |visits| && visits[v].provenance == GatesOf(visits, revision)[g]
  {
    var init := visits[..|visits| - 1];
    if g < |GatesOf(init, revision)| {
      v := GatesComeFromVisits(init, revision, g);
    } else {
      v := |visits| - 1;
    }
  }

  lemma {:induction false} FilteredVisitsStayOrderly(visits: seq<R.Visit>, revision: string)
    requires forall i, j :: 0 <= i < j < |visits| && visits[i].provenance.Some? && visits[j].provenance.Some? ==>
      visits[i].provenance.value <= visits[j].provenance.value
    ensures Orderly(GatesOf(visits, revision))
  {
    if visits != [] {
      var init, last := visits[..|visits| - 1], |visits| - 1;
      FilteredVisitsStayOrderly(init, revision);
      forall g | 0 <= g < |GatesOf(init, revision)| && GatesOf(init, revision)[g].Some? && visits[last].provenance.Some?
        ensures GatesOf(init, revision)[g].value <= visits[last].provenance.value
      {
        var v := GatesComeFromVisits(init, revision, g);
        assert visits[v].provenance == init[v].provenance;
      }
    }
  }

  // The provenance that the gates of a revision receive comes from the credentials
  // protocol, and is orderly in every run of it.
  lemma RedisProvenanceIsOrderly(run: seq<R.World>, k: nat, revision: string)
    requires R.IsRun(run) && k < |run|
    ensures Orderly(GatesOf(run[k].gates, revision))
  {
    S.RunsKeepInv(run, k);
    FilteredVisitsStayOrderly(run[k].gates, revision);
  }

  // So the bound holds in the operator, where the gates of a revision get what the
  // credentials protocol accepted.
  lemma RerunsBoundedInOperator(run: seq<World>, k: nat, credentials: seq<R.World>, c: nat, revision: string)
    requires IsHarmlessRun(run) && k < |run| && R.IsRun(credentials) && c < |credentials|
    requires run[k].gates == GatesOf(credentials[c].gates, revision)
    ensures Distinct(run[k].created)
    ensures forall i :: 0 <= i < |run[k].created| - 1 ==> run[k].created[i].Some?
    ensures |run[k].created| <= |Values(GatesOf(credentials[c].gates, revision))|
  {
    RedisProvenanceIsOrderly(credentials, c, revision);
    RerunsBoundedByRegenerations(run, k);
  }

  // A harmful deletion does make the operator create a Job with a used stamp: from any
  // run and any such deletion, the next gate with the same provenance does.
  lemma ForeignDeletionRepeatsStamp(run: seq<World>) returns (longer: seq<World>)
    requires IsRun(run) && Orderly(run[|run| - 1].gates) && !HarmlessDeletion(run[|run| - 1])
    ensures IsRun(longer) && run <= longer && Orderly(longer[|longer| - 1].gates)
    ensures
      var w, w' := run[|run| - 1], longer[|longer| - 1];
      var stamp := w.created[|w.created| - 1];
      w'.created == w.created + [stamp] && w'.gates == w.gates + [stamp]
  {
    var stamp := run[|run| - 1].job.value.stamp;
    longer := Extend(run, ForeignDelete);
    longer := Extend(longer, Abort);
    longer := Extend(longer, Begin(stamp));
    longer := Extend(longer, Act);
  }

  // And there are runs with one.
  lemma StampIsOnJobAfterCreation(start: World, uid: Uid) returns (run: seq<World>)
    requires Init(start) && start.gates == []
    ensures IsRun(run) && Orderly(run[|run| - 1].gates) && !HarmlessDeletion(run[|run| - 1])
  {
    run := [start];
    run := Extend(run, Begin(Some(uid)));
    run := Extend(run, Act);
  }

  lemma Extend(run: seq<World>, step: Step) returns (longer: seq<World>)
    requires IsRun(run) && Enabled(run[|run| - 1], step)
    ensures IsRun(longer) && longer == run + [Next(run[|run| - 1], step)]
  {
    longer := run + [Next(run[|run| - 1], step)];
    forall i | 0 <= i < |longer| - 1 ensures Steps(longer[i], longer[i + 1]) {
      if i < |run| - 1 {
        assert Steps(run[i], run[i + 1]);
      } else {
        assert Enabled(run[i], step) && Next(run[i], step) == longer[i + 1];
      }
    }
  }

  // ---- The code ---------------------------------------------------------------------

  class JobApi {
    var world: World
    ghost var run: seq<World>

    ghost predicate Valid()
      reads this
    {
      IsRun(run) && run[|run| - 1] == world
    }

    constructor (world: World)
      requires Init(world)
      ensures Valid() && this.world == world
    {
      this.world := world;
      run := [world];
    }

    method Take(step: Step)
      requires Valid() && Enabled(world, step)
      modifies this
      ensures Valid() && old(run) <= run && world == Next(old(world), step)
    {
      world := Next(world, step);
      ghost var longer := Extend(run, step);
      run := longer;
    }

    // Any actions of the Job controller and of other actors.
    method Interfere()
      requires Valid()
      modifies this
      ensures Valid() && old(run) <= run
      ensures world.local == old(world.local) && world.rerun == old(world.rerun) && world.created == old(world.created)
    {
      var n: int := *;
      while n > 0
        invariant Valid() && old(run) <= run
        invariant world.local == old(world.local) && world.rerun == old(world.rerun) && world.created == old(world.created)
      {
        n := n - 1;
        var step: Step := *;
        if Enabled(world, step) && (step.Progress? || step.ForeignCreate? || step.ForeignDelete?) {
          Take(step);
        }
      }
    }

    method GetOpt(provenance: Option<Uid>) returns (r: Result<Option<Job>, ()>)
      requires Valid() && world.local.Idle?
      modifies this
      ensures Valid() && old(run) <= run
      ensures world.rerun == old(world.rerun) && world.created == old(world.created)
      ensures r.Failure? ==> world.local.Idle?
      ensures r.Success? ==> world.local == Read(provenance, r.value)
    {
      Interfere();
      var ok: bool := *;
      if ok {
        r := Success(world.job);
        Take(Begin(provenance));
      } else {
        r := Failure(());
      }
    }

    // The DELETE or POST that `Act` stands for; a failed call may have taken effect.
    method Call() returns (r: Result<(), ()>)
      requires Valid() && world.local.Read?
      modifies this
      ensures Valid() && old(run) <= run && world.local.Idle?
      ensures |world.created| + |world.rerun| <= |old(world).created| + |old(world).rerun| + 1
      ensures old(world).local.seen.None? ==>
        world.rerun == old(world).rerun
        && (r.Success? ==> world.created == old(world).created + [old(world).local.provenance])
      ensures old(world).local.seen.Some? ==>
        world.created == old(world).created
        && (r.Success? ==> world.job.None?
                           && |world.rerun| == |old(world).rerun| + 1 && old(world).rerun <= world.rerun
                           && world.rerun[|old(world).rerun|].uid == old(world).local.seen.value.uid)
    {
      Interfere();
      var ok: bool := *;
      var effective: bool := *;
      var before := world;
      if ok || effective {
        Take(Act);
      } else {
        Take(Abort);
      }
      r := if ok && (world.created != before.created || world.rerun != before.rerun) then Success(()) else Failure(());
    }

    method Return(state: Gate) returns (r: Result<Gate, ()>)
      requires Valid()
      modifies this
      ensures Valid() && old(run) <= run && world.local.Idle?
      ensures world.rerun == old(world.rerun) && world.created == old(world.created)
      ensures r == Success(state)
    {
      Take(Abort);
      r := Success(state);
    }
  }

  // The gate opens only on a Job that was read as succeeded; otherwise at most one
  // Job is created or rerun. `seen` is the Job as the operator read it.
  method ReconcileMigrationJob(api: JobApi, provenance: Option<Uid>)
    returns (r: Result<Gate, ()>, seen: Option<Job>)
    requires api.Valid() && api.world.local.Idle?
    modifies api
    ensures api.Valid() && old(api.run) <= api.run && api.world.local.Idle?
    ensures r.Success? ==> r.value != NotRequired
    ensures r.Success? && r.value == Succeeded <==> seen.Some? && (seen.value.succeeded > 0 || seen.value.complete)
    ensures r.Success? && r.value == Failed <==>
      seen.Some? && FailedJob(seen.value)
      && (seen.value.stamp.None? || provenance.None? || seen.value.stamp == provenance)
    ensures api.world.rerun != old(api.world.rerun) ==>
      seen.Some? && FailedJob(seen.value)
      && seen.value.stamp.Some? && provenance.Some? && seen.value.stamp.value != provenance.value
    ensures api.world.created != old(api.world.created) ==> seen.None?
    ensures r.Success? && seen.None? ==>
      r.value == Running && api.world.created == old(api.world.created) + [provenance]
    ensures
      r.Success? && seen.Some? && FailedJob(seen.value)
      && seen.value.stamp.Some? && provenance.Some? && seen.value.stamp.value != provenance.value ==>
        && r.value == Running && api.world.job.None?
        && |api.world.rerun| == |old(api.world.rerun)| + 1 && old(api.world.rerun) <= api.world.rerun
        && api.world.rerun[|old(api.world.rerun)|].uid == seen.value.uid
  {
    seen := None;
    var existing := api.GetOpt(provenance);
    if existing.Failure? {
      return Failure(()), None;
    }
    seen := existing.value;
    if seen.Some? {
      var job := seen.value;
      if job.succeeded > 0 || job.complete {
        r := api.Return(Succeeded);
        return;
      }
      if job.failed {
        if Stale(job, provenance) {
          var deleted := api.Call();
          r := if deleted.Success? then Success(Running) else Failure(());
          return;
        }
        r := api.Return(Failed);
        return;
      }
      r := api.Return(Running);
      return;
    }
    var created := api.Call();
    r := if created.Success? then Success(Running) else Failure(());
  }
}

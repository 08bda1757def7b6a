// Recovery of the Redis credentials protocol: what one uninterrupted reconcile
// on a fresh snapshot reaches, and from which states.
module RedisConvergence {
  import opened Wrappers
  import opened RedisDigest
  import opened RedisProvenance
  import opened RedisMetadata

  function FreshSnapshot(w: World): Project
    requires w.versions != []
  {
    Project(|w.versions| - 1, Live(w))
  }

  // Nothing in the way: no Secret at the name, or an immutable one that is recorded by
  // its UID or, without a recorded UID, whose data has the pending digest.
  predicate Recoverable(w: World)
  {
    && w.versions != []
    && (w.secret.Some? ==>
          && w.secret.value.immutable
          && (Live(w).uid == Some(w.secret.value.uid)
              || (Live(w).uid.None? && Live(w).digest == Some(DigestOf(w.secret.value.data)))))
  }

  lemma RecoverableIsTrusted(w: World)
    requires w.versions != [] && w.secret.Some?
    ensures Recoverable(w) <==>
      w.secret.value.immutable && SecretProvenance(w.secret.value, FreshSnapshot(w)).Some?
  {
  }

  function Rank(local: Local): nat
  {
    match local
    case Started(_) => 5
    case Absent(_) => 4
    case Generated(_, _) => 3
    case Found(_, _) => 3
    case Repaired(_, _) => 2
    case Committed(_) => 2
    case Created(_) => 1
    case Idle => 0
    case Accepted(_) => 0
    case Unneeded(_) => 0
  }

  // The rest of the reconcile when nothing interferes.
  function Finish(w: World, minted: Data): (w': World)
    requires w.versions != []
    ensures w'.versions != []
    decreases Rank(w.local)
  {
    if Rank(w.local) == 0 then w else Finish(Operate(w, minted), minted)
  }

  function Reconcile(w: World, minted: Data): (w': World)
    requires w.versions != []
    ensures w'.versions != []
  {
    Finish(w.(local := Started(FreshSnapshot(w))), minted)
  }

  // `Reconcile` takes steps of the protocol only.
  ghost predicate Leads(w: World, w': World, path: seq<World>)
  {
    && path != [] && path[0] == w && path[|path| - 1] == w'
    && forall i :: 0 <= i < |path| - 1 ==> Steps(path[i], path[i + 1])
  }

  lemma {:induction false} FinishTakesSteps(w: World, minted: Data) returns (path: seq<World>)
    requires w.versions != [] && FreshData(w, minted)
    ensures Leads(w, Finish(w, minted), path)
    decreases Rank(w.local)
  {
    path := [w];
    if Rank(w.local) > 0 {
      var next := Operate(w, minted);
      assert Enabled(w, Proceed(minted)) && Next(w, Proceed(minted)) == next;
      if w.local.Started? {
        var rest := FinishTakesSteps(next, minted);
        path := [w] + rest;
      } else {
        var rest := FinishCreates(next, minted);
        path := [w] + rest;
      }
    }
  }

  lemma {:induction false} FinishCreates(w: World, minted: Data) returns (path: seq<World>)
    requires w.versions != [] && !w.local.Absent? && !w.local.Started?
    ensures Leads(w, Finish(w, minted), path)
    decreases Rank(w.local)
  {
    path := [w];
    if Rank(w.local) > 0 {
      assert Enabled(w, Proceed(minted)) && Next(w, Proceed(minted)) == Operate(w, minted);
      var rest := FinishCreates(Operate(w, minted), minted);
      path := [w] + rest;
    }
  }

  predicate SameSecret(a: Option<Secret>, b: Option<Secret>)
  {
    && a.Some? == b.Some?
    && (a.Some? ==>
          && a.value.uid == b.value.uid
          && a.value.data == b.value.data
          && a.value.immutable == b.value.immutable)
  }

  // The recorded UID is the live Secret's, no digest is pending, and the Secret is neither
  // owned by the Project nor hidden from the operator's watch.
  predicate Converged(w: World)
  {
    && w.versions != []
    && w.secret.Some? && w.secret.value.immutable
    && Live(w) == Status(Some(w.secret.value.uid), None)
    && Guarded(w.secret.value.metadata, w.self)
  }

  // The steps of a reconcile that finds a trusted, immutable Secret.
  lemma TrustedSecretConverges(w: World, minted: Data)
    requires Recoverable(w) && w.secret.Some?
    ensures
      var w' := Reconcile(w, minted);
      && Converged(w') && w'.local == Accepted(w.secret.value.uid) && w'.self == w.self
      && SameSecret(w'.secret, w.secret)
      && w'.secret.value.metadata == Enforced(w.secret.value.metadata, w.secret.value.metadata, w.self)
      && w'.generated == w.generated
      && (Live(w) == Status(Some(w.secret.value.uid), None) ==> w'.versions == w.versions)
  {
    var s := w.secret.value;
    var app := FreshSnapshot(w);
    RecoverableIsTrusted(w);
    RepairGuards(s.metadata, w.self);
    IntactExactlyWhenGuarded(s.metadata, w.self);
    var w1 := w.(local := Started(app));
    var w2 := Operate(w1, minted);
    assert w2 == w.(local := Found(app, s));
    var w3 := Operate(w2, minted);
    assert w3.local == Repaired(app, s) && w3.versions == w.versions;
    assert Reconcile(w, minted) == Finish(w2, minted) == Finish(w3, minted) == Finish(Operate(w3, minted), minted);
  }

  lemma AbsentSecretConverges(w: World, minted: Data)
    requires w.versions != [] && w.secret.None?
    ensures
      var w' := Reconcile(w, minted);
      && Converged(w') && w'.local == Accepted(w'.secret.value.uid) && w'.self == w.self
      && w'.secret.value.data == minted
  {
    IntactExactlyWhenGuarded(Metadata([], OperatorLabels(w.self.name)), w.self);
    var w1 := w.(local := Started(FreshSnapshot(w)));
    var w2 := Operate(w1, minted);
    var w3 := Operate(w2, minted);
    var w4 := Operate(w3, minted);
    var w5 := Operate(w4, minted);
    assert Reconcile(w, minted) == Finish(w2, minted) == Finish(w3, minted) == Finish(w4, minted);
    assert Finish(w4, minted) == Finish(w5, minted) == Finish(Operate(w5, minted), minted);
  }

  lemma UntrustedSecretStays(w: World, minted: Data)
    requires w.versions != [] && !Recoverable(w)
    ensures
      var w' := Reconcile(w, minted);
      w'.local.Idle? && w'.versions == w.versions && SameSecret(w'.secret, w.secret)
  {
    RecoverableIsTrusted(w);
    var w1 := w.(local := Started(FreshSnapshot(w)));
    var w2 := Operate(w1, minted);
    assert Reconcile(w, minted) == Finish(w2, minted);
    if !w2.local.Idle? {
      assert Finish(w2, minted) == Finish(Operate(w2, minted), minted);
    }
  }

  // One uninterrupted reconcile on a fresh snapshot converges exactly from the
  // recoverable states. It keeps a Secret that exists, restoring its metadata, and
  // otherwise creates one from the generated data; from every other state it reports an
  // error and leaves the status, and the Secret up to its metadata, as they were.
  lemma ConvergesExactlyWhenRecoverable(w: World, minted: Data)
    requires w.versions != []
    ensures Recoverable(w) <==> Reconcile(w, minted).local.Accepted?
    ensures Recoverable(w) ==>
      var w' := Reconcile(w, minted);
      && Converged(w') && w'.local == Accepted(w'.secret.value.uid) && w'.self == w.self
      && (w.secret.Some? ==> SameSecret(w'.secret, w.secret) && Keeps(w.secret.value.metadata.owners, w'.secret.value.metadata.owners, w.self.uid))
      && (w.secret.None? ==> w'.secret.value.data == minted)
    ensures !Recoverable(w) ==>
      var w' := Reconcile(w, minted);
      w'.local.Idle? && w'.versions == w.versions && SameSecret(w'.secret, w.secret)
  {
    if !Recoverable(w) {
      UntrustedSecretStays(w, minted);
    } else if w.secret.Some? {
      TrustedSecretConverges(w, minted);
      RepairGuards(w.secret.value.metadata, w.self);
    } else {
      AbsentSecretConverges(w, minted);
    }
  }

  // A second reconcile returns the same UID and changes nothing at all.
  lemma ReconcileIsStable(w: World, minted: Data, other: Data)
    requires Recoverable(w)
    ensures
      var once := Reconcile(w, minted);
      var twice := Reconcile(once, other);
      && twice.local == once.local
      && twice.versions == once.versions
      && twice.secret == once.secret
      && twice.generated == once.generated
  {
    ConvergesExactlyWhenRecoverable(w, minted);
    var once := Reconcile(w, minted);
    var s := once.secret.value;
    TrustedSecretConverges(once, other);
    IntactExactlyWhenGuarded(s.metadata, once.self);
    var v2 := Operate(once.(local := Started(FreshSnapshot(once))), other);
    var v3 := Operate(v2, other);
    assert v3 == once.(local := Repaired(FreshSnapshot(once), s));
    assert Reconcile(once, other) == Finish(v2, other) == Finish(v3, other) == Finish(Operate(v3, other), other);
  }

  // Each provenance write clears the field it does not set.
  lemma ProvenanceWritesSetOneField(w: World, minted: Data)
    requires Enabled(w, Proceed(minted)) && Operate(w, minted).versions != w.versions
    ensures
      var written := Live(Operate(w, minted));
      && Operate(w, minted).versions == w.versions + [Version(written, Newest(w).needsRedis)]
      && (written.uid.Some? <==> written.digest.None?)
  {
  }

  // The final status write records the accepted UID; without Redis it writes back the
  // fields of the snapshot, and a field that the snapshot lacks stays.
  lemma StatusWriteStores(w: World)
    requires Enabled(w, UpdateStatus)
    ensures
      var w' := Next(w, UpdateStatus);
      && w' == w.(versions := w'.versions)
      && w'.versions == w.versions + [Version(Live(w'), Newest(w).needsRedis)]
      && (w.local.Accepted? ==> Live(w') == Status(Some(w.local.uid), Live(w).digest))
      && (w.local.Unneeded? ==>
            var seen := w.local.app.status;
            && (seen.uid.Some? ==> Live(w').uid == seen.uid) && (seen.uid.None? ==> Live(w').uid == Live(w).uid)
            && (seen.digest.Some? ==> Live(w').digest == seen.digest) && (seen.digest.None? ==> Live(w').digest == Live(w).digest))
  {
  }

  // ---- Which crash states are recoverable -------------------------------------------

  // `update_status` writes what the snapshot said. This is harmless exactly when
  // the snapshot does not contradict the live Secret.
  predicate HarmlessStatusWrite(w: World)
    requires w.versions != [] && w.local.Unneeded?
  {
    w.secret.Some? ==>
      var written, s := w.local.app.status, w.secret.value;
      if written.uid.Some? then written.uid.value == s.uid
      else Live(w).uid.None? && written.digest.Some? ==> written.digest.value == DigestOf(s.data)
  }

  lemma StatusWriteKeepsRecoverable(w: World)
    requires Recoverable(w) && w.local.Unneeded?
    ensures Recoverable(Next(w, UpdateStatus)) <==> HarmlessStatusWrite(w)
  {
  }

  lemma FreshStatusWriteIsHarmless(w: World)
    requires Recoverable(w) && w.local.Unneeded? && w.local.app.status == Live(w)
    ensures HarmlessStatusWrite(w)
  {
  }

  // ---- Runs -------------------------------------------------------------------------

  // Everything but a tenant planting data at the Secret's name: crashes, stale
  // snapshots, deletions and metadata edits are all included.
  predicate Unplanted(w: World, step: Step)
  {
    && Enabled(w, step)
    && !step.TenantCreate?
    && (step.TenantUpdate? ==> w.secret.value.immutable)
  }

  // Snapshots never go back: each is at least as new as every one before it.
  predicate Forward(w: World, step: Step)
  {
    Unplanted(w, step) && (step.Begin? ==> w.since <= step.version)
  }

  // They may go back, but then a status write must not contradict the live Secret.
  predicate Benign(w: World, step: Step)
  {
    && Unplanted(w, step)
    && (step.UpdateStatus? && w.local.Unneeded? && w.local.app.resourceVersion < w.since ==> HarmlessStatusWrite(w))
  }

  predicate OnlyOurs(w: World, uid: Uid)
  {
    w.secret.Some? ==> w.secret.value.uid == uid
  }

  predicate Undisturbed(w: World)
  {
    && Recoverable(w)
    && match w.local
       case Absent(_) => w.secret.None?
       case Generated(_, _) => w.secret.None?
       case Committed(data) => w.secret.None? && Live(w) == Status(None, Some(DigestOf(data)))
       case Found(_, s) => OnlyOurs(w, s.uid)
       case Repaired(_, s) => OnlyOurs(w, s.uid)
       case Created(uid) => OnlyOurs(w, uid)
       case Accepted(uid) => OnlyOurs(w, uid)
       case _ => true
  }

  predicate Agrees(secret: Option<Secret>, status: Status)
  {
    secret.Some? ==>
      if status.uid.Some? then status.uid.value == secret.value.uid
      else status.digest.Some? ==> status.digest.value == DigestOf(secret.value.data)
  }

  // Where the snapshot of the current reconcile comes from. Only a reconcile of the
  // newest version so far can get as far as creating a Secret.
  predicate Rooted(w: World)
  {
    && w.since < |w.versions|
    && match w.local
       case Started(app) => app.resourceVersion <= w.since && w.versions[app.resourceVersion].needsRedis
       case Absent(app) => app.resourceVersion <= w.since && w.versions[app.resourceVersion].needsRedis
       case Generated(app, _) => app.resourceVersion <= w.since && w.versions[app.resourceVersion].needsRedis
       case Committed(data) =>
         && w.versions[w.since].needsRedis && w.since + 1 < |w.versions|
         && forall v :: w.since < v < |w.versions| ==> w.versions[v].status == Status(None, Some(DigestOf(data)))
       case Unneeded(app) =>
         && app.resourceVersion <= w.since && !w.versions[app.resourceVersion].needsRedis
         && w.versions[app.resourceVersion].status == app.status
       case _ => true
  }

  // The versions from which a reconcile without Redis may still start agree with the
  // live Secret.
  predicate Current(w: World)
  {
    && Rooted(w)
    && forall v :: w.since <= v < |w.versions| && !w.versions[v].needsRedis ==> Agrees(w.secret, w.versions[v].status)
  }

  lemma StepKeepsRooted(w: World, step: Step)
    requires Rooted(w) && Benign(w, step)
    ensures Rooted(Next(w, step))
  {
  }

  lemma CurrentWritesAreHarmless(w: World)
    requires Current(w) && w.local.Unneeded? && w.local.app.resourceVersion == w.since
    ensures HarmlessStatusWrite(w)
  {
  }

  lemma BenignStepsKeepUndisturbed(w: World, step: Step)
    requires Undisturbed(w) && Current(w) && Benign(w, step)
    ensures Undisturbed(Next(w, step))
  {
    if step.UpdateStatus? && w.local.Unneeded? && w.local.app.resourceVersion == w.since {
      CurrentWritesAreHarmless(w);
    }
  }

  lemma RecoverableAgrees(w: World)
    requires Recoverable(w)
    ensures Agrees(w.secret, Live(w))
  {
  }

  // Versions that were there before the step.
  lemma OlderVersionAgrees(w: World, step: Step, v: nat)
    requires Undisturbed(w) && Current(w) && Benign(w, step)
    requires Next(w, step).since <= v < |Next(w, step).versions| - 1 && !Next(w, step).versions[v].needsRedis
    ensures Agrees(Next(w, step).secret, Next(w, step).versions[v].status)
  {
    assert v < |w.versions| && Next(w, step).versions[v] == w.versions[v] && w.since <= v;
    assert Agrees(w.secret, w.versions[v].status);
  }

  // What is stored after a step agrees with the Secret after it.
  lemma BenignStepsKeepCurrent(w: World, step: Step)
    requires Undisturbed(w) && Current(w) && Benign(w, step)
    ensures Current(Next(w, step))
  {
    StepKeepsRooted(w, step);
    BenignStepsKeepUndisturbed(w, step);
    var w' := Next(w, step);
    RecoverableAgrees(w');
    forall v: nat | w'.since <= v < |w'.versions| - 1 && !w'.versions[v].needsRedis
      ensures Agrees(w'.secret, w'.versions[v].status)
    {
      OlderVersionAgrees(w, step, v);
    }
  }

  ghost predicate BenignStep(w: World, w': World)
  {
    exists step :: Benign(w, step) && Next(w, step) == w'
  }

  ghost predicate IsBenignRun(run: seq<World>)
  {
    && run != [] && Init(run[0])
    && forall i :: 0 <= i < |run| - 1 ==> BenignStep(run[i], run[i + 1])
  }

  // Whatever crashes and stale reconciles a benign run contains, one
  // uninterrupted reconcile afterwards records the live Secret.
  lemma {:induction false} BenignRunsRecover(run: seq<World>, k: nat, minted: Data)
    requires IsBenignRun(run) && k < |run|
    ensures Undisturbed(run[k]) && Current(run[k])
    ensures Converged(Reconcile(run[k], minted))
  {
    if k > 0 {
      BenignRunsRecover(run, k - 1, minted);
      assert BenignStep(run[k - 1], run[k]);
      var step :| Benign(run[k - 1], step) && Next(run[k - 1], step) == run[k];
      BenignStepsKeepUndisturbed(run[k - 1], step);
      BenignStepsKeepCurrent(run[k - 1], step);
    }
    ConvergesExactlyWhenRecoverable(run[k], minted);
  }

  ghost predicate ForwardStep(w: World, w': World)
  {
    exists step :: Forward(w, step) && Next(w, step) == w'
  }

  ghost predicate IsForwardRun(run: seq<World>)
  {
    && run != [] && Init(run[0])
    && forall i :: 0 <= i < |run| - 1 ==> ForwardStep(run[i], run[i + 1])
  }

  predicate FromNewest(w: World)
  {
    w.local.Unneeded? ==> w.local.app.resourceVersion == w.since
  }

  lemma {:induction false} ForwardRunsStartFromNewest(run: seq<World>, k: nat)
    requires IsForwardRun(run) && k < |run|
    ensures FromNewest(run[k])
  {
    if k > 0 {
      ForwardRunsStartFromNewest(run, k - 1);
      assert ForwardStep(run[k - 1], run[k]);
    }
  }

  // Without a planted Secret and with snapshots that never go back, however stale they
  // are, nothing else has to be excluded.
  lemma ForwardRunsRecover(run: seq<World>, k: nat, minted: Data)
    requires IsForwardRun(run) && k < |run|
    ensures run[k].versions != []
    ensures Converged(Reconcile(run[k], minted))
  {
    forall i | 0 <= i < |run| - 1 ensures BenignStep(run[i], run[i + 1]) {
      assert ForwardStep(run[i], run[i + 1]);
      var step :| Forward(run[i], step) && Next(run[i], step) == run[i + 1];
      ForwardRunsStartFromNewest(run, i);
      assert Benign(run[i], step);
    }
    BenignRunsRecover(run, k, minted);
  }

  // ---- A snapshot that goes back ------------------------------------------------------

  function Last(run: seq<World>): World
    requires run != []
  {
    run[|run| - 1]
  }

  lemma Extend(run: seq<World>, step: Step) returns (longer: seq<World>)
    requires IsBenignRun(run) && Benign(Last(run), step)
    ensures IsBenignRun(longer) && run <= longer && Last(longer) == Next(Last(run), step)
  {
    longer := run + [Next(Last(run), step)];
    assert BenignStep(Last(run), Last(longer));
    forall i | 0 <= i < |longer| - 1 ensures BenignStep(longer[i], longer[i + 1]) {
      if i < |run| - 1 {
        assert BenignStep(run[i], run[i + 1]);
      }
    }
  }

  // From no Secret to a committed digest.
  lemma Commit(run: seq<World>, data: Data) returns (longer: seq<World>)
    requires IsBenignRun(run) && Last(run).versions != [] && Last(run).local.Idle? && Last(run).secret.None?
    requires Newest(Last(run)).needsRedis && FreshData(Last(run), data) && Last(run).since < |Last(run).versions|
    ensures IsBenignRun(longer) && run <= longer
    ensures
      var w := Last(run);
      Last(longer) == w.(local := Committed(data), generated := w.generated + {data}, since := |w.versions| - 1,
                         versions := w.versions + [Version(Status(None, Some(DigestOf(data))), true)])
  {
    longer := Extend(run, Begin(|Last(run).versions| - 1));
    longer := Extend(longer, Proceed(data));
    longer := Extend(longer, Proceed(data));
    longer := Extend(longer, Proceed(data));
  }

  // One whole creation, from no Secret to a recorded UID.
  lemma Regenerate(run: seq<World>, data: Data) returns (longer: seq<World>)
    requires IsBenignRun(run) && Last(run).versions != [] && Last(run).local.Idle? && Last(run).secret.None?
    requires Newest(Last(run)).needsRedis && FreshData(Last(run), data)
    ensures IsBenignRun(longer) && run <= longer
    ensures
      var w, w' := Last(run), Last(longer);
      && w'.local.Idle?
      && w'.secret.Some? && w'.secret.value.uid == w.nextUid && w'.secret.value.immutable
      && w'.versions == w.versions
         + [Version(Status(None, Some(DigestOf(data))), true), Version(Status(Some(w.nextUid), None), true)]
      && w'.nextUid == w.nextUid + 1 && w.since <= w'.since == |w.versions| - 1
      && w'.generated == w.generated + {data} && w'.revealed == w.revealed + {data}
  {
    BenignRunsRecover(run, |run| - 1, data);
    longer := Commit(run, data);
    longer := Extend(longer, Proceed(data));
    longer := Extend(longer, Proceed(data));
    longer := Extend(longer, Abort);
  }

  // Nobody trusts the live Secret, and no snapshot in use does.
  predicate Stranded(w: World)
  {
    && w.versions != [] && w.secret.Some?
    && Live(w).uid.Some? && Live(w).uid.value != w.secret.value.uid
    && match w.local
       case Idle => true
       case Started(app) => app.status.uid.Some? && app.status.uid.value != w.secret.value.uid
       case Unneeded(app) => app.status.uid.Some? && app.status.uid.value != w.secret.value.uid
       case _ => false
  }

  // Nobody touches the Secret, and reconciles start from the stored Project.
  predicate Untouched(w: World, step: Step)
  {
    && Enabled(w, step)
    && !step.TenantCreate? && !step.TenantUpdate? && !step.TenantDelete?
    && (step.Begin? ==> step.version == |w.versions| - 1)
  }

  lemma StrandedStaysStranded(w: World, step: Step)
    requires Stranded(w) && Untouched(w, step)
    ensures Stranded(Next(w, step)) && !Recoverable(Next(w, step))
  {
  }

  ghost predicate UntouchedStep(w: World, w': World)
  {
    exists step :: Untouched(w, step) && Next(w, step) == w'
  }

  ghost predicate IsUntouched(path: seq<World>)
  {
    path != [] && forall i :: 0 <= i < |path| - 1 ==> UntouchedStep(path[i], path[i + 1])
  }

  // As long as that lasts, the operator keeps rejecting the Secret, whatever else happens.
  lemma {:induction false} StrandedForGood(path: seq<World>, i: nat)
    requires IsUntouched(path) && i < |path| && Stranded(path[0])
    ensures Stranded(path[i]) && !Recoverable(path[i])
  {
    if i > 0 {
      StrandedForGood(path, i - 1);
      assert UntouchedStep(path[i - 1], path[i]);
      var step :| Untouched(path[i - 1], step) && Next(path[i - 1], step) == path[i];
      StrandedStaysStranded(path[i - 1], step);
    }
  }

  lemma EditedTwice(start: World, first: Data) returns (run: seq<World>)
    requires Init(start) && start.versions[0].needsRedis
    ensures IsBenignRun(run) && run[0] == start
    ensures
      var w := Last(run);
      && w.local.Idle? && w.secret.None? && w.nextUid == 1 && w.since == 0
      && w.generated == {first} && w.revealed == {first}
      && |w.versions| == 5 && w.versions[3] == Version(Status(Some(0), None), false)
      && Newest(w) == Version(Status(Some(0), None), true)
  {
    run := Regenerate([start], first);
    run := Extend(run, EditProject(false));
    run := Extend(run, EditProject(true));
    run := Extend(run, TenantDelete);
  }

  // The exclusion for snapshots that go back is needed: after the Project has done
  // without Redis for one version, a reconcile from that version puts the old UID over
  // the current one.
  lemma StaleStatusWriteStrands(start: World, first: Data, second: Data)
    returns (run: seq<World>, written: World)
    requires Init(start) && start.versions[0].needsRedis && first != second
    ensures IsBenignRun(run) && run[0] == start && Recoverable(Last(run))
    ensures Enabled(Last(run), UpdateStatus) && written == Next(Last(run), UpdateStatus)
    ensures Last(run).local.Unneeded? && Last(run).local.app.resourceVersion < Last(run).since
    ensures !Recoverable(written) && Stranded(written)
  {
    run := EditedTwice(start, first);
    run := Regenerate(run, second);
    assert Last(run).versions[3] == Version(Status(Some(0), None), false);
    run := Extend(run, Begin(3));
    written := Next(Last(run), UpdateStatus);
    BenignRunsRecover(run, |run| - 1, second);
  }

  // And nothing in which the Secret is left alone leads out of that state.
  lemma StaleStatusWriteStrandsForGood(start: World, first: Data, second: Data)
    returns (run: seq<World>, written: World)
    requires Init(start) && start.versions[0].needsRedis && first != second
    ensures IsBenignRun(run) && run[0] == start && Recoverable(Last(run))
    ensures Enabled(Last(run), UpdateStatus) && written == Next(Last(run), UpdateStatus)
    ensures forall path, i: nat :: IsUntouched(path) && path[0] == written && i < |path| ==>
      Stranded(path[i]) && !Recoverable(path[i])
  {
    run, written := StaleStatusWriteStrands(start, first, second);
    forall path, i: nat | IsUntouched(path) && path[0] == written && i < |path|
      ensures Stranded(path[i]) && !Recoverable(path[i])
    {
      StrandedForGood(path, i);
    }
  }
}

// `reconcile_redis_credentials_secret` in the form of its source, against an
// API server whose calls may fail, may fail after taking effect, and are
// interleaved with any number of tenant actions. Every execution is shown to be
// a run of the protocol, so the results about runs are results about the code.
module RedisReconcile {
  import opened Wrappers
  import opened RedisDigest
  import opened RedisProvenance
  import opened RedisMetadata
  import opened RedisSafety

  datatype Error = KubeError | RepeatedPassword | OwnershipConflict | MutableSecret

  class Cluster {
    var world: World
    ghost var run: seq<World>

    ghost predicate Valid()
      reads this
    {
      IsRun(run) && run[|run| - 1] == world && world.versions != []
    }

    constructor (self: Identity)
      ensures Valid()
    {
      var start := World(self, None, [Version(Status(None, None), true)], 0, 0, Idle, {}, map[], {}, {}, [], [], 0);
      world := start;
      run := [start];
    }

    method Take(step: Step)
      requires Valid() && Enabled(world, step)
      modifies this
      ensures Valid() && old(run) <= run
      ensures world == Next(old(world), step)
    {
      world := Next(world, step);
      ghost var before := run;
      run := run + [world];
      forall i | 0 <= i < |run| - 1 ensures Steps(run[i], run[i + 1]) {
        if i < |before| - 1 {
          assert Steps(before[i], before[i + 1]);
        } else {
          assert Enabled(old(world), step) && Next(old(world), step) == run[i + 1];
        }
      }
    }

    // Any number of tenant actions and unrelated Project edits.
    method Interfere()
      requires Valid()
      modifies this
      ensures Valid() && old(run) <= run
      ensures world.local == old(world.local) && world.self == old(world.self)
    {
      var n: int := *;
      while n > 0
        invariant Valid() && old(run) <= run && world.local == old(world.local) && world.self == old(world.self)
      {
        n := n - 1;
        var step: Step := *;
        if Enabled(world, step)
           && (step.TenantCreate? || step.TenantUpdate? || step.TenantDelete? || step.EditProject?) {
          Take(step);
        }
      }
    }

    // The call that `world.local` stands before; `before` is what it finds. `false` covers
    // a rejected call, a lost response to a call that took effect, and a crash of the operator.
    method Call() returns (ok: bool, before: World)
      requires Valid() && !world.local.Idle? && !world.local.Absent?
      modifies this
      ensures Valid() && old(run) <= run
      ensures !ok ==> world.local == Idle
      ensures before.versions != [] && before.local == old(world).local && before.self == old(world).self && Versioned(before)
      ensures ok ==> world == Operate(before, [])
    {
      Interfere();
      RunsAreVersioned(run, |run| - 1);
      ok := *;
      var effective: bool := *;
      before := world;
      if ok || effective {
        Take(Proceed([]));
      }
      if !ok {
        Take(Abort);
      }
    }

    method GetSecret(app: Project) returns (r: Result<Option<Secret>, Error>)
      requires Valid() && world.local == Started(app)
      modifies this
      ensures Valid() && old(run) <= run
      ensures r.Failure? ==> world.local == Idle
      ensures r == Success(None) ==> world.local == Absent(app)
      ensures r.Success? && r.value.Some? ==>
        world.local == if SecretProvenance(r.value.value, app).Some? then Found(app, r.value.value) else Idle
    {
      var ok, _ := Call();
      if ok {
        r := Success(world.secret);
      } else {
        r := Failure(KubeError);
      }
    }

    // What the operator does next without calling the API.
    method Decide()
      requires Valid() && !world.local.Idle? && !world.local.Absent?
      modifies this
      ensures Valid() && old(run) <= run
      ensures old(world).versions != [] && world == Operate(old(world), [])
    {
      Take(Proceed([]));
    }

    // A success has repaired the very version that was read.
    method PatchMetadata(app: Project, existing: Secret) returns (r: Result<(), Error>)
      requires Valid() && world.local == Found(app, existing) && !Intact(existing.metadata, world.self)
      modifies this
      ensures Valid() && old(run) <= run && (r.Failure? ==> world.local == Idle)
      ensures r.Success? ==> world.local == if existing.immutable then Repaired(app, existing) else Idle
      ensures r.Success? ==> world.self == old(world).self && RepairedFrom(world, existing)
    {
      var ok, before := Call();
      if ok && RedisProvenance.PatchMetadata(before, existing).Some? {
        RepairGuards(existing.metadata, before.self);
        r := Success(());
      } else {
        r := Failure(KubeError);
      }
    }

    // `patch_redis_credentials_provenance`: both fields are written, so the one
    // that is absent is cleared; a resourceVersion makes the write conditional.
    method PatchProvenance(uid: Option<Uid>, digest: Option<Digest>, resourceVersion: Option<nat>)
      returns (r: Result<(), Error>)
      requires Valid()
      requires match world.local
               case Repaired(app, s) =>
                 (app.status.uid.None? || app.status.digest.Some?)
                 && uid == Some(s.uid) && digest.None? && resourceVersion.None?
               case Created(created) => uid == Some(created) && digest.None? && resourceVersion.None?
               case Generated(app, data) =>
                 uid.None? && digest == Some(DigestOf(data)) && resourceVersion == Some(app.resourceVersion)
               case _ => false
      modifies this
      ensures Valid() && old(run) <= run
      ensures r.Failure? ==> world.local == Idle
      ensures r.Success? ==> world.versions != [] && Live(world) == Status(uid, digest)
      ensures r.Success? ==>
        world.local == if uid.Some? then Accepted(uid.value) else Committed(old(world).local.data)
    {
      var ok, _ := Call();
      r := if ok && !world.local.Idle? then Success(()) else Failure(KubeError);
    }

    // The password generator. Its output is assumed never to repeat; a draw that
    // did would end the reconcile here.
    method Generate(app: Project) returns (r: Result<Data, Error>)
      requires Valid() && world.local == Absent(app)
      modifies this
      ensures Valid() && old(run) <= run
      ensures r.Failure? ==> world.local == Idle
      ensures r.Success? ==> world.local == Generated(app, r.value)
    {
      var data: Data := *;
      if FreshData(world, data) {
        Take(Proceed(data));
        r := Success(data);
      } else {
        Take(Abort);
        r := Failure(RepeatedPassword);
      }
    }

    method CreateSecret(data: Data) returns (r: Result<Uid, Error>)
      requires Valid() && world.local == Committed(data)
      modifies this
      ensures Valid() && old(run) <= run
      ensures r.Failure? ==> world.local == Idle
      ensures r.Success? ==> world.local == Created(r.value)
    {
      var ok, _ := Call();
      r := if ok && world.local.Created? then Success(world.local.uid) else Failure(KubeError);
    }
  }

  // The live Secret is the one that was read, with guarded metadata.
  predicate RepairedFrom(w: World, existing: Secret)
  {
    && w.secret.Some? && w.secret.value.uid == existing.uid
    && w.secret.value.data == existing.data && w.secret.value.immutable == existing.immutable
    && Guarded(w.secret.value.metadata, w.self)
    && Keeps(existing.metadata.owners, w.secret.value.metadata.owners, w.self.uid)
  }

  // Metadata that are not guarded are repaired in the version that was read, or the
  // reconcile ends; guarded ones are left alone.
  method EnforceMetadata(cluster: Cluster, app: Project, existing: Secret) returns (r: Result<(), Error>)
    requires cluster.Valid() && cluster.world.local == Found(app, existing)
    modifies cluster
    ensures cluster.Valid() && old(cluster.run) <= cluster.run
    ensures r.Failure? ==> cluster.world.local == Idle
    ensures r.Success? ==> cluster.world.local == if existing.immutable then Repaired(app, existing) else Idle
    ensures Guarded(existing.metadata, old(cluster.world).self) ==> r.Success? && cluster.world.secret == old(cluster.world).secret
    ensures r.Success? && !Guarded(existing.metadata, old(cluster.world).self) ==> RepairedFrom(cluster.world, existing)
  {
    IntactExactlyWhenGuarded(existing.metadata, cluster.world.self);
    if Intact(existing.metadata, cluster.world.self) {
      cluster.Decide();
      return Success(());
    }
    r := cluster.PatchMetadata(app, existing);
  }

  // No Secret was found: commit the digest, create, and record the UID.
  method GenerateCredentials(cluster: Cluster, app: Project) returns (r: Result<Uid, Error>)
    requires cluster.Valid() && cluster.world.local == Absent(app)
    modifies cluster
    ensures cluster.Valid() && old(cluster.run) <= cluster.run
    ensures r.Success? ==> cluster.world.local == Accepted(r.value) && Genuine(cluster.world, r.value)
    ensures r.Failure? ==> cluster.world.local == Idle
  {
    var generated := cluster.Generate(app);
    if generated.Failure? {
      return Failure(generated.error);
    }
    var digest := DigestOf(generated.value);
    var committed := cluster.PatchProvenance(None, Some(digest), Some(app.resourceVersion));
    if committed.Failure? {
      return Failure(committed.error);
    }
    var created := cluster.CreateSecret(generated.value);
    if created.Failure? {
      return Failure(created.error);
    }
    var recorded := cluster.PatchProvenance(Some(created.value), None, None);
    if recorded.Failure? {
      return Failure(recorded.error);
    }
    AcceptedIsGenuine(cluster.run, |cluster.run| - 1);
    return Success(created.value);
  }

  // A successful reconcile returns a UID that the protocol accepted; whatever
  // happens, the cluster has taken steps of the protocol only.
  method ReconcileRedisCredentialsSecret(cluster: Cluster, app: Project)
    returns (r: Result<Uid, Error>)
    requires cluster.Valid() && cluster.world.local == Started(app)
    modifies cluster
    ensures cluster.Valid() && old(cluster.run) <= cluster.run
    ensures r.Success? ==> cluster.world.local == Accepted(r.value) && Genuine(cluster.world, r.value)
    ensures r.Failure? ==> cluster.world.local == Idle
  {
    var existing := cluster.GetSecret(app);
    if existing.Failure? {
      return Failure(existing.error);
    }
    if existing.value.Some? {
      var secret := existing.value.value;
      var provenance := SecretProvenance(secret, app);
      if provenance.None? {
        return Failure(OwnershipConflict);
      }
      var enforced := EnforceMetadata(cluster, app, secret);
      if enforced.Failure? {
        return Failure(enforced.error);
      }
      if !secret.immutable {
        return Failure(MutableSecret);
      }
      if app.status.uid.None? || app.status.digest.Some? {
        var patched := cluster.PatchProvenance(provenance, None, None);
        if patched.Failure? {
          return Failure(patched.error);
        }
      } else {
        cluster.Decide();
      }
      AcceptedIsGenuine(cluster.run, |cluster.run| - 1);
      return Success(provenance.value);
    }
    r := GenerateCredentials(cluster, app);
  }

  lemma AcceptedIsGenuine(run: seq<World>, k: nat)
    requires IsRun(run) && k < |run| && run[k].local.Accepted?
    ensures Genuine(run[k], run[k].local.uid)
  {
    RunsKeepInv(run, k);
  }
}

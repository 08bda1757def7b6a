// The metadata of the Redis credentials Secret: owner references that would let garbage
// collection delete it, and the labels that the operator's watch selects on.
module RedisMetadata {
  import opened Wrappers
  import opened RedisDigest
  import opened RedisProvenance

  // Not owned by the Project, and selected by the watch.
  predicate Guarded(m: Metadata, self: Identity)
  {
    && (forall i :: 0 <= i < |m.owners| ==> m.owners[i] != self.uid)
    && "app.kubernetes.io/name" in m.labels && m.labels["app.kubernetes.io/name"] == self.name
    && "app.kubernetes.io/managed-by" in m.labels && m.labels["app.kubernetes.io/managed-by"] == "reinhardt-cloud-operator"
  }

  // All references but those to the Project.
  predicate Keeps(owners: seq<nat>, kept: seq<nat>, uid: nat)
  {
    multiset(kept) == multiset(owners)[uid := 0]
  }

  lemma {:induction false} OthersStay(owners: seq<nat>, uid: nat)
    ensures Keeps(owners, WithoutOwner(owners, uid), uid)
    ensures uid !in owners ==> WithoutOwner(owners, uid) == owners
  {
    if owners != [] {
      OthersStay(owners[1..], uid);
      assert owners == [owners[0]] + owners[1..];
    }
  }

  lemma KeptIsClean(owners: seq<nat>, kept: seq<nat>, uid: nat)
    requires Keeps(owners, kept, uid)
    ensures uid !in kept
  {
    assert uid in kept <==> uid in multiset(kept);
  }

  // What stays is in its old order: appending one more owner appends it, unless it is the Project.
  lemma {:induction false} OrderStays(owners: seq<nat>, more: seq<nat>, uid: nat)
    ensures WithoutOwner(owners + more, uid) == WithoutOwner(owners, uid) + WithoutOwner(more, uid)
  {
    if owners == [] {
      assert owners + more == more;
    } else {
      assert (owners + more)[1..] == owners[1..] + more;
      OrderStays(owners[1..], more, uid);
    }
  }

  lemma IntactExactlyWhenGuarded(m: Metadata, self: Identity)
    ensures Intact(m, self) <==> Guarded(m, self)
  {
    var labels := OperatorLabels(self.name);
    assert forall key :: key in labels <==> key == "app.kubernetes.io/name" || key == "app.kubernetes.io/managed-by";
    assert "app.kubernetes.io/name" != "app.kubernetes.io/managed-by";
  }

  // The repair guards the Secret, drops this Project's references only, keeps every other
  // label, and leaves guarded metadata alone.
  lemma RepairGuards(m: Metadata, self: Identity)
    ensures Guarded(Enforced(m, m, self), self)
    ensures Keeps(m.owners, Enforced(m, m, self).owners, self.uid)
    ensures forall key :: key != "app.kubernetes.io/name" && key != "app.kubernetes.io/managed-by" ==>
      (key in Enforced(m, m, self).labels <==> key in m.labels)
      && (key in m.labels ==> Enforced(m, m, self).labels[key] == m.labels[key])
    ensures Enforced(m, m, self) == m <==> Guarded(m, self)
  {
    var repaired := Enforced(m, m, self);
    OthersStay(m.owners, self.uid);
    KeptIsClean(m.owners, WithoutOwner(m.owners, self.uid), self.uid);
    IntactExactlyWhenGuarded(m, self);
    assert Labelled(repaired, self);
    assert Intact(repaired, self);
    IntactExactlyWhenGuarded(repaired, self);
  }

  // ---- Runs ------------------------------------------------------------------------------

  // The version of an object identifies its contents.
  predicate Current(w: World, seen: Secret)
  {
    && seen.resourceVersion < w.nextVersion
    && (w.secret.Some? && w.secret.value.resourceVersion == seen.resourceVersion ==> w.secret.value == seen)
  }

  predicate Versioned(w: World)
  {
    && (w.secret.Some? ==> w.secret.value.resourceVersion < w.nextVersion)
    && (w.local.Found? ==> Current(w, w.local.existing))
  }

  lemma StepKeepsVersioned(w: World, step: Step)
    requires Versioned(w) && Enabled(w, step)
    ensures Versioned(Next(w, step)) && Next(w, step).self == w.self
  {
  }

  lemma {:induction false} RunsAreVersioned(run: seq<World>, k: nat)
    requires IsRun(run) && k < |run|
    ensures Versioned(run[k]) && run[k].self == run[0].self
  {
    if k > 0 {
      RunsAreVersioned(run, k - 1);
      assert Steps(run[k - 1], run[k]);
      var step :| Enabled(run[k - 1], step) && Next(run[k - 1], step) == run[k];
      StepKeepsVersioned(run[k - 1], step);
    }
  }

  // Whatever happened before, a step of the operator changes the metadata of an existing
  // Secret only if they are not guarded, and then guards them; the Secret is the very
  // version that this reconcile read and trusted, so no concurrent edit is overwritten.
  lemma OperatorRepairsWhatItRead(run: seq<World>, k: nat, step: Step)
    requires IsRun(run) && k < |run| && Enabled(run[k], step)
    requires !step.TenantCreate? && !step.TenantUpdate? && !step.TenantDelete?
    requires run[k].secret.Some?
    ensures
      var w, w' := run[k], Next(run[k], step);
      && w'.secret.Some?
      && (w'.secret != w.secret ==>
            && step.Proceed? && w.local.Found? && w.local.existing == w.secret.value
            && SecretProvenance(w.secret.value, w.local.app).Some?
            && !Guarded(w.secret.value.metadata, w.self) && Guarded(w'.secret.value.metadata, w.self)
            && Keeps(w.secret.value.metadata.owners, w'.secret.value.metadata.owners, w.self.uid)
            && w'.secret.value.data == w.secret.value.data && w'.secret.value.uid == w.secret.value.uid
            && w'.secret.value.immutable == w.secret.value.immutable)
  {
    RunsAreVersioned(run, k);
    var w := run[k];
    if step.Proceed? && w.local.Found? && Next(w, step).secret != w.secret {
      RepairGuards(w.secret.value.metadata, w.self);
      IntactExactlyWhenGuarded(w.local.existing.metadata, w.self);
      FoundIsTrusted(run, k);
    }
  }

  lemma {:induction false} FoundIsTrusted(run: seq<World>, k: nat)
    requires IsRun(run) && k < |run|
    ensures run[k].local.Found? ==> SecretProvenance(run[k].local.existing, run[k].local.app).Some?
  {
    if k > 0 {
      FoundIsTrusted(run, k - 1);
      assert Steps(run[k - 1], run[k]);
      var step :| Enabled(run[k - 1], step) && Next(run[k - 1], step) == run[k];
    }
  }
}

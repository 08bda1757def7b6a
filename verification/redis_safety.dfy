// What every run of the Redis credentials protocol keeps.
module RedisSafety {
  import opened Wrappers
  import opened RedisDigest
  import opened RedisProvenance

  // `uid` names a Secret that was immutable while it held operator-generated data.
  predicate Genuine(w: World, uid: Uid)
  {
    uid in w.frozen && w.frozen[uid] in w.generated
  }

  ghost predicate FromOperator(w: World, digest: Digest)
  {
    exists data :: data in w.generated && DigestOf(data) == digest
  }

  ghost predicate Sound(w: World, status: Status)
  {
    && (status.uid.Some? ==> Genuine(w, status.uid.value))
    && (status.digest.Some? ==> FromOperator(w, status.digest.value))
  }

  ghost predicate SoundVersions(w: World)
  {
    w.versions != [] && forall i :: 0 <= i < |w.versions| ==> Sound(w, w.versions[i].status)
  }

  predicate SoundSecret(w: World)
  {
    && (forall uid :: uid in w.frozen ==> uid < w.nextUid)
    && (w.secret.Some? ==>
          var s := w.secret.value;
          && s.uid + 1 == w.nextUid
          && s.data in w.revealed
          && (if s.immutable then s.uid in w.frozen && w.frozen[s.uid] == s.data else s.uid !in w.frozen))
  }

  // A Secret as it was read earlier in the same reconcile.
  predicate SoundRead(w: World, s: Secret)
  {
    && s.uid < w.nextUid
    && (s.immutable ==> s.uid in w.frozen && w.frozen[s.uid] == s.data)
    && forall i :: 0 <= i < |w.accepted| ==> w.accepted[i] <= s.uid
  }

  ghost predicate SoundLocal(w: World)
  {
    match w.local
    case Idle => true
    case Started(app) => Sound(w, app.status)
    case Found(app, s) => Sound(w, app.status) && SoundRead(w, s) && SecretProvenance(s, app).Some?
    case Repaired(app, s) =>
      Sound(w, app.status) && SoundRead(w, s) && SecretProvenance(s, app).Some? && s.immutable
    case Absent(app) => Sound(w, app.status)
    case Generated(app, data) => Sound(w, app.status) && data in w.generated
    case Committed(data) => data in w.generated
    case Created(uid) =>
      && uid < w.nextUid && Genuine(w, uid)
      && forall i :: 0 <= i < |w.accepted| ==> w.accepted[i] <= uid
    case Accepted(uid) => w.accepted != [] && uid == w.accepted[|w.accepted| - 1]
    case Unneeded(app) => Sound(w, app.status)
  }

  predicate SoundHistory(w: World)
  {
    && (forall i :: 0 <= i < |w.accepted| ==> Genuine(w, w.accepted[i]) && w.accepted[i] < w.nextUid)
    && (forall i, j :: 0 <= i < j < |w.accepted| ==> w.accepted[i] <= w.accepted[j])
    && (forall uid :: uid in w.stamps ==> uid in w.accepted)
    && (forall i :: 0 <= i < |w.gates| && w.gates[i].provenance.Some? ==> w.gates[i].provenance.value in w.accepted)
    && (forall i, j :: 0 <= i < j < |w.gates| && w.gates[i].provenance.Some? && w.gates[j].provenance.Some? ==>
          w.gates[i].provenance.value <= w.gates[j].provenance.value)
  }

  ghost predicate Inv(w: World)
  {
    SoundVersions(w) && SoundSecret(w) && SoundLocal(w) && SoundHistory(w)
  }

  // History only grows, so a genuine UID stays genuine however stale the
  // snapshot that names it.
  ghost predicate Grows(w: World, w': World)
  {
    && (forall uid :: uid in w.frozen ==> uid in w'.frozen && w'.frozen[uid] == w.frozen[uid])
    && w.generated <= w'.generated
  }

  lemma SoundGrows(w: World, w': World, status: Status)
    requires Grows(w, w') && Sound(w, status)
    ensures Sound(w', status)
  {
    if status.digest.Some? {
      var data :| data in w.generated && DigestOf(data) == status.digest.value;
      assert data in w'.generated;
    }
  }

  lemma StepGrows(w: World, step: Step)
    requires SoundSecret(w) && Enabled(w, step)
    ensures Grows(w, Next(w, step))
  {
  }

  // The data of a trusted, immutable Secret is the operator's: through the
  // recorded UID by history, through the pending digest by collision freeness.
  lemma TrustedIsGenuine(w: World, app: Project, s: Secret)
    requires Sound(w, app.status) && SoundRead(w, s) && s.immutable && SecretProvenance(s, app).Some?
    ensures Genuine(w, s.uid) && s.data in w.generated
  {
    if app.status.uid.None? {
      var data :| data in w.generated && DigestOf(data) == app.status.digest.value;
      DigestIdentifiesData(data, s.data);
    }
  }

  lemma VersionsKept(w: World, w': World)
    requires SoundVersions(w) && Grows(w, w') && w'.versions != []
    requires w'.versions == w.versions || (w'.versions == w.versions + [Newest(w')] && Sound(w', Live(w')))
    ensures SoundVersions(w')
  {
    forall i | 0 <= i < |w'.versions| ensures Sound(w', w'.versions[i].status) {
      if i < |w.versions| {
        SoundGrows(w, w', w.versions[i].status);
      }
    }
  }

  lemma OperateKeepsVersions(w: World, minted: Data)
    requires Inv(w) && Enabled(w, Proceed(minted))
    ensures SoundVersions(Operate(w, minted))
  {
    var w' := Operate(w, minted);
    StepGrows(w, Proceed(minted));
    match w.local
    case Repaired(app, s) => TrustedIsGenuine(w, app, s);
    case _ =>
    VersionsKept(w, w');
  }

  lemma AcceptKeepsHistory(w: World, uid: Uid, w': World)
    requires SoundHistory(w) && SoundSecret(w) && Genuine(w, uid) && uid < w.nextUid
    requires forall i :: 0 <= i < |w.accepted| ==> w.accepted[i] <= uid
    requires w'.local == Accepted(uid) && w'.accepted == w.accepted + [uid]
    requires w'.frozen == w.frozen && w'.generated == w.generated && w'.nextUid == w.nextUid && w'.stamps == w.stamps
    requires w'.gates == w.gates
    ensures SoundLocal(w') && SoundHistory(w')
  {
    assert w'.accepted[|w.accepted|] == uid;
  }

  // A step that accepts, stamps and gates nothing keeps the history.
  lemma HistoryKept(w: World, w': World)
    requires SoundHistory(w) && Grows(w, w') && w.nextUid <= w'.nextUid
    requires w'.accepted == w.accepted && w'.stamps == w.stamps && w'.gates == w.gates
    ensures SoundHistory(w')
  {
  }

  lemma ReadKeepsLocal(w: World, minted: Data)
    requires Inv(w) && Enabled(w, Proceed(minted)) && (w.local.Started? || w.local.Found? || w.local.Absent?)
    ensures SoundLocal(Operate(w, minted))
  {
    StepGrows(w, Proceed(minted));
    SoundGrows(w, Operate(w, minted), w.local.app.status);
  }

  lemma WriteKeepsLocal(w: World, minted: Data)
    requires Inv(w) && Enabled(w, Proceed(minted)) && (w.local.Generated? || w.local.Committed?)
    ensures SoundLocal(Operate(w, minted))
  {
  }

  lemma OperateKeepsLocal(w: World, minted: Data)
    requires Inv(w) && Enabled(w, Proceed(minted))
    ensures SoundLocal(Operate(w, minted)) && SoundHistory(Operate(w, minted))
  {
    if w.local.Repaired? {
      TrustedIsGenuine(w, w.local.app, w.local.existing);
      AcceptKeepsHistory(w, w.local.existing.uid, Operate(w, minted));
    } else if w.local.Created? {
      AcceptKeepsHistory(w, w.local.uid, Operate(w, minted));
    } else {
      OtherCallKeepsHistory(w, minted);
      if w.local.Generated? || w.local.Committed? {
        WriteKeepsLocal(w, minted);
      } else if w.local.Started? || w.local.Found? || w.local.Absent? {
        ReadKeepsLocal(w, minted);
      }
    }
  }

  lemma OtherCallKeepsHistory(w: World, minted: Data)
    requires Inv(w) && Enabled(w, Proceed(minted)) && !w.local.Repaired? && !w.local.Created?
    ensures SoundHistory(Operate(w, minted))
  {
    StepGrows(w, Proceed(minted));
    HistoryKept(w, Operate(w, minted));
  }

  lemma CreationKeepsSecret(w: World, data: Data)
    requires SoundSecret(w) && w.local == Committed(data) && w.secret.None? && w.versions != []
    ensures SoundSecret(Operate(w, data))
  {
  }

  lemma OperateKeepsSecret(w: World, minted: Data)
    requires SoundSecret(w) && w.versions != []
    ensures SoundSecret(Operate(w, minted))
  {
    if w.local.Committed? && w.secret.None? {
      CreationKeepsSecret(w, w.local.data);
      assert Operate(w, minted) == Operate(w, w.local.data);
    }
  }

  lemma OperateKeepsInv(w: World, minted: Data)
    requires Inv(w) && Enabled(w, Proceed(minted))
    ensures Inv(Operate(w, minted))
  {
    OperateKeepsVersions(w, minted);
    OperateKeepsLocal(w, minted);
    OperateKeepsSecret(w, minted);
  }

  lemma StatusStepKeepsInv(w: World, step: Step)
    requires Inv(w) && Enabled(w, step) && (step.UpdateStatus? || step.EditProject?)
    ensures Inv(Next(w, step))
  {
    var w' := Next(w, step);
    StepGrows(w, step);
    SoundGrows(w, w', Live(w));
    VersionsKept(w, w');
    HistoryKept(w, w');
    if step.EditProject? {
      LocalKept(w, w', step);
    } else if w.local.Unneeded? {
      SoundGrows(w, w', w.local.app.status);
    }
  }

  lemma TenantStepKeepsInv(w: World, step: Step)
    requires Inv(w) && Enabled(w, step) && (step.TenantCreate? || step.TenantUpdate? || step.TenantDelete?)
    ensures Inv(Next(w, step))
  {
    var w' := Next(w, step);
    StepGrows(w, step);
    VersionsKept(w, w');
    HistoryKept(w, w');
    LocalKept(w, w', step);
  }

  lemma StepKeepsInv(w: World, step: Step)
    requires Inv(w) && Enabled(w, step)
    ensures Inv(Next(w, step))
  {
    if step.Proceed? {
      OperateKeepsInv(w, step.minted);
    } else if step.UpdateStatus? || step.EditProject? {
      StatusStepKeepsInv(w, step);
    } else if step.TenantCreate? || step.TenantUpdate? || step.TenantDelete? {
      TenantStepKeepsInv(w, step);
    } else {
      StepGrows(w, step);
      VersionsKept(w, Next(w, step));
      LocalKept(w, Next(w, step), step);
    }
  }

  lemma LocalKept(w: World, w': World, step: Step)
    requires Inv(w) && Enabled(w, step) && w' == Next(w, step) && Grows(w, w')
    requires !step.Proceed? && !step.UpdateStatus?
    ensures SoundLocal(w')
  {
    match w'.local
    case Started(app) => SoundGrows(w, w', app.status);
    case Found(app, _) => SoundGrows(w, w', app.status);
    case Repaired(app, _) => SoundGrows(w, w', app.status);
    case Absent(app) => SoundGrows(w, w', app.status);
    case Generated(app, _) => SoundGrows(w, w', app.status);
    case Unneeded(app) => SoundGrows(w, w', app.status);
    case _ =>
  }

  lemma {:induction false} RunsKeepInv(run: seq<World>, k: nat)
    requires IsRun(run) && k < |run|
    ensures Inv(run[k])
  {
    if k > 0 {
      RunsKeepInv(run, k - 1);
      assert Steps(run[k - 1], run[k]);
      var step :| Enabled(run[k - 1], step) && Next(run[k - 1], step) == run[k];
      StepKeepsInv(run[k - 1], step);
    }
  }

  // ---- Main results --------------------------------------------------------------

  // Every UID that any version of the Project status ever recorded, and every
  // UID stamped into a Pod template, names a Secret that was immutable while it
  // held data the operator generated; every digest is of such data.
  lemma EveryRecordIsGenuine(run: seq<World>, k: nat)
    requires IsRun(run) && k < |run|
    ensures forall i :: 0 <= i < |run[k].versions| ==> Sound(run[k], run[k].versions[i].status)
    ensures forall uid :: uid in run[k].accepted || uid in run[k].stamps ==> Genuine(run[k], uid)
  {
    RunsKeepInv(run, k);
  }

  // While the Secret that the reconcile accepted is still there, it holds
  // operator-generated data, whatever happened since.
  lemma AcceptedSecretHoldsOperatorData(run: seq<World>, k: nat)
    requires IsRun(run) && k < |run|
    ensures
      var w := run[k];
      w.local.Accepted? && w.secret.Some? && w.secret.value.uid == w.local.uid ==>
        w.secret.value.immutable && w.secret.value.data in w.generated
  {
    RunsKeepInv(run, k);
  }

  // Provenance never returns to an earlier Secret. Rerun rules that compare
  // stamps with the current provenance rely on this.
  lemma ProvenanceNeverReturns(run: seq<World>, k: nat, i: nat, j: nat, l: nat)
    requires IsRun(run) && k < |run| && i < j < l < |run[k].accepted|
    ensures run[k].accepted[i] == run[k].accepted[l] ==> run[k].accepted[j] == run[k].accepted[i]
    ensures run[k].accepted[i] <= run[k].accepted[j]
  {
    RunsKeepInv(run, k);
  }

  // The operator never replaces a Secret, and never changes its data.
  lemma OperatorKeepsExistingData(w: World, step: Step)
    requires Enabled(w, step) && w.secret.Some? && (step.Proceed? || step.Stamp? || step.UpdateStatus? || step.Abort?)
    ensures
      var s' := Next(w, step).secret;
      s'.Some? && s'.value.data == w.secret.value.data && s'.value.uid == w.secret.value.uid
      && s'.value.immutable == w.secret.value.immutable
  {
  }
}

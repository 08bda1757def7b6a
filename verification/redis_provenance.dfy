// The Redis credentials protocol: one predictable Secret name, two fields of
// the Project status, and one operator that may crash after any API call and
// may start from any Project version that ever existed. Tenants create, delete
// and rewrite the Secret between any two calls.
//
// Modelling conventions. UIDs are numbered in the order in which the API server
// assigns them. The resourceVersion of the Project is its index in `versions`.
// `stamps` and the fields after it are history: nothing the operator does depends on
// them.
module RedisProvenance {
  import opened Wrappers
  import opened RedisDigest

  type Uid = nat

  // The Project whose credentials these are.
  datatype Identity = Identity(name: string, uid: nat)

  datatype Metadata = Metadata(owners: seq<nat>, labels: map<string, string>)

  datatype Secret = Secret(
    uid: Uid,
    resourceVersion: nat,
    immutable: bool,
    data: Data,
    metadata: Metadata)

  // The two provenance fields of ProjectStatus.
  datatype Status = Status(uid: Option<Uid>, digest: Option<Digest>)

  // A stored version of the Project. Whether it needs Redis is a matter of its spec.
  datatype Version = Version(status: Status, needsRedis: bool)

  // A Project as the controller cache hands it to `reconcile`.
  datatype Project = Project(resourceVersion: nat, status: Status)

  // Where one run of `reconcile_redis_credentials_secret` stands.
  datatype Local =
    | Idle
    | Started(app: Project)                    // next: look the Secret up
    | Found(app: Project, existing: Secret)    // trusted; next: repair its metadata
    | Repaired(app: Project, existing: Secret) // immutable; next: record its UID
    | Absent(app: Project)                     // next: generate the data
    | Generated(app: Project, data: Data)      // next: commit to its digest
    | Committed(data: Data)                    // next: create the Secret
    | Created(uid: Uid)                        // next: record its UID
    | Accepted(uid: Uid)                       // returned Ok(provenance)
    | Unneeded(app: Project)                   // a reconcile that needs no Redis

  datatype World = World(
    self: Identity,
    secret: Option<Secret>,
    versions: seq<Version>,
    nextUid: Uid,
    nextVersion: nat,
    local: Local,
    stamps: set<Uid>,          // UIDs stamped into Pod templates
    frozen: map<Uid, Data>,    // data of every Secret that has been immutable
    generated: set<Data>,      // data the operator has generated
    revealed: set<Data>,       // data that has been stored in some Secret
    accepted: seq<Uid>,        // provenance returned so far, oldest first
    gates: seq<Visit>,         // migration gates so far, with what they were given
    since: nat)                // the newest version a reconcile has started from

  datatype Visit = Visit(revision: string, provenance: Option<Uid>)

  function Newest(w: World): Version
    requires w.versions != []
  {
    w.versions[|w.versions| - 1]
  }

  function Live(w: World): Status
    requires w.versions != []
  {
    Newest(w).status
  }

  // ---- redis_credentials_secret_provenance --------------------------------------

  function SecretProvenance(secret: Secret, app: Project): Option<Uid>
  {
    match app.status.uid
    case Some(recorded) => if recorded == secret.uid then Some(secret.uid) else None
    case None =>
      match app.status.digest
      case Some(pending) => if pending == DigestOf(secret.data) then Some(secret.uid) else None
      case None => None
  }

  // ---- enforce_redis_credentials_metadata ------------------------------------------

  function OperatorLabels(name: string): map<string, string>
  {
    map["app.kubernetes.io/name" := name, "app.kubernetes.io/managed-by" := "reinhardt-cloud-operator"]
  }

  predicate Labelled(m: Metadata, self: Identity)
  {
    forall key :: key in OperatorLabels(self.name) ==> key in m.labels && m.labels[key] == OperatorLabels(self.name)[key]
  }

  predicate Intact(m: Metadata, self: Identity)
  {
    self.uid !in m.owners && Labelled(m, self)
  }

  function WithoutOwner(owners: seq<nat>, uid: nat): seq<nat>
  {
    if owners == [] then []
    else (if owners[0] == uid then [] else [owners[0]]) + WithoutOwner(owners[1..], uid)
  }

  // The merge patch, as derived from what was seen: a list is replaced, labels are merged.
  function Enforced(live: Metadata, seen: Metadata, self: Identity): Metadata
  {
    Metadata(if self.uid in seen.owners then WithoutOwner(seen.owners, self.uid) else live.owners,
             if Labelled(seen, self) then live.labels else live.labels + OperatorLabels(self.name))
  }

  // ---- The operator's API calls ---------------------------------------------------

  function WriteStatus(w: World, status: Status): World
    requires w.versions != []
  {
    w.(versions := w.versions + [Version(status, Newest(w).needsRedis)])
  }

  function Accept(w: World, uid: Uid): World
  {
    w.(local := Accepted(uid), accepted := w.accepted + [uid])
  }

  function Fail(w: World): World
  {
    w.(local := Idle)
  }

  // Merge patch of the metadata, conditioned on the observed UID and version.
  function PatchMetadata(w: World, observed: Secret): Option<Secret>
  {
    match w.secret
    case Some(s) =>
      if s.uid == observed.uid && s.resourceVersion == observed.resourceVersion
      then Some(s.(metadata := Enforced(s.metadata, observed.metadata, w.self), resourceVersion := w.nextVersion))
      else None
    case None => None
  }

  // One uninterrupted step of `reconcile_redis_credentials_secret`; `minted` is
  // what the password generator returns if this step calls it.
  function Operate(w: World, minted: Data): World
    requires w.versions != []
  {
    match w.local
    case Started(app) =>
      (match w.secret
       case None => w.(local := Absent(app))
       case Some(s) => if SecretProvenance(s, app).Some? then w.(local := Found(app, s)) else Fail(w))
    case Found(app, existing) =>
      if Intact(existing.metadata, w.self) then
        if existing.immutable then w.(local := Repaired(app, existing)) else Fail(w)
      else
        (match PatchMetadata(w, existing)
         case None => Fail(w)
         case Some(s) =>
           var w' := w.(secret := Some(s), nextVersion := w.nextVersion + 1);
           if existing.immutable then w'.(local := Repaired(app, existing)) else Fail(w'))
    case Repaired(app, existing) =>
      if app.status.uid.None? || app.status.digest.Some?
      then Accept(WriteStatus(w, Status(Some(existing.uid), None)), existing.uid)
      else Accept(w, existing.uid)
    case Absent(app) => w.(generated := w.generated + {minted}, local := Generated(app, minted))
    case Generated(app, data) =>
      if app.resourceVersion == |w.versions| - 1
      then WriteStatus(w, Status(None, Some(DigestOf(data)))).(local := Committed(data))
      else Fail(w)
    case Committed(data) =>
      if w.secret.Some? then Fail(w)
      else
        var s := Secret(w.nextUid, w.nextVersion, true, data, Metadata([], OperatorLabels(w.self.name)));
        Store(w, s).(nextUid := w.nextUid + 1, local := Created(w.nextUid))
    case Created(uid) => Accept(WriteStatus(w, Status(Some(uid), None)), uid)
    case Accepted(uid) => Fail(w)
    case Unneeded(app) => Fail(w)
    case Idle => w
  }

  // Stores `s` under the Secret's name and extends the history.
  function Store(w: World, s: Secret): World
  {
    w.(secret := Some(s),
       nextVersion := w.nextVersion + 1,
       revealed := w.revealed + {s.data},
       frozen := if s.immutable then w.frozen[s.uid := s.data] else w.frozen)
  }

  // ProjectStatus omits absent fields when serialized, so a merge patch built
  // from it leaves the server's value of an absent field alone.
  function Merge(live: Status, written: Status): Status
  {
    Status(if written.uid.Some? then written.uid else live.uid,
           if written.digest.Some? then written.digest else live.digest)
  }

  // ---- Steps ------------------------------------------------------------------------

  datatype Step =
    | Begin(version: nat)                    // any version: the cache may be stale
    | Proceed(minted: Data)                  // the operator's next API call succeeds
    | Abort                                  // the call fails, or the operator crashes
    | Stamp                                  // a Deployment or migration Job gets the UID
    | UpdateStatus                           // `update_status` at the end of `apply`
    | Gate(revision: string)                 // the migration gate gets the provenance
    | EditProject(needsRedis: bool)          // anything else that changes the Project
    | TenantCreate(immutable: bool, data: Data, metadata: Metadata)
    | TenantUpdate(immutable: bool, data: Data, metadata: Metadata)
    | TenantDelete

  predicate FreshData(w: World, data: Data)
  {
    data !in w.generated && data !in w.revealed
  }

  // Operator data cannot be guessed before a Secret has shown it.
  predicate Guessable(w: World, data: Data)
  {
    data in w.generated ==> data in w.revealed
  }

  predicate Enabled(w: World, step: Step)
  {
    && w.versions != []
    && match step
       case Begin(version) => w.local.Idle? && version < |w.versions|
       case Proceed(minted) => !w.local.Idle? && (w.local.Absent? ==> FreshData(w, minted))
       case Abort => true
       case Stamp => w.local.Accepted?
       case UpdateStatus => w.local.Accepted? || w.local.Unneeded?
       case Gate(_) => w.local.Accepted? || w.local.Unneeded?
       case EditProject(_) => true
       case TenantCreate(_, data, _) => w.secret.None? && Guessable(w, data)
       case TenantUpdate(immutable, data, _) =>
         && w.secret.Some? && Guessable(w, data)
         // the API server rejects changes to the data of an immutable Secret
         && (w.secret.value.immutable ==> immutable && data == w.secret.value.data)
       case TenantDelete => true
  }

  function Next(w: World, step: Step): World
    requires Enabled(w, step)
  {
    match step
    case Begin(version) =>
      var app := Project(version, w.versions[version].status);
      w.(local := if w.versions[version].needsRedis then Started(app) else Unneeded(app),
         since := if version > w.since then version else w.since)
    case Proceed(minted) => Operate(w, minted)
    case Abort => Fail(w)
    case Stamp => w.(stamps := w.stamps + {w.local.uid})
    case UpdateStatus =>
      // `build_status` copies both fields from the snapshot; with Redis in use
      // `record` then replaces the UID and drops the digest.
      var written := if w.local.Accepted? then Status(Some(w.local.uid), None) else w.local.app.status;
      WriteStatus(w, Merge(Live(w), written))
    case Gate(revision) =>
      w.(gates := w.gates + [Visit(revision, if w.local.Accepted? then Some(w.local.uid) else None)])
    case EditProject(needsRedis) => w.(versions := w.versions + [Version(Live(w), needsRedis)])
    case TenantCreate(immutable, data, metadata) =>
      Store(w, Secret(w.nextUid, w.nextVersion, immutable, data, metadata)).(nextUid := w.nextUid + 1)
    case TenantUpdate(immutable, data, metadata) =>
      Store(w, w.secret.value.(resourceVersion := w.nextVersion, immutable := immutable, data := data, metadata := metadata))
    case TenantDelete => w.(secret := None)
  }

  predicate Init(w: World)
  {
    exists needsRedis ::
      w == World(w.self, None, [Version(Status(None, None), needsRedis)], 0, 0, Idle, {}, map[], {}, {}, [], [], 0)
  }

  ghost predicate Steps(w: World, w': World)
  {
    exists step :: Enabled(w, step) && Next(w, step) == w'
  }

  ghost predicate IsRun(run: seq<World>)
  {
    && run != [] && Init(run[0])
    && forall i :: 0 <= i < |run| - 1 ==> Steps(run[i], run[i + 1])
  }
}

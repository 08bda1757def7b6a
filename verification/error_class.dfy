// Classification of reconcile errors. An error's cause is a chain: the operator's
// own errors, and foreign ones that are only known to have a source or none.
module ErrorClass {
  import opened Wrappers

  datatype Class = Transient | DependencyNotReady | Permanent | OwnershipConflict

  datatype KubeError = Api(code: nat) | NotApi

  datatype Error =
    | Kube(kube: KubeError)
    | Serialization
    | Finalizer(source: Cause)
    | MissingField
    | MissingNamespace
    | OwnerReference
    | ResourceOwnershipConflict
    | InvalidPort
    | InvalidProbePeriod
    | InvalidStaticRoot
    | ConflictingPagesEnv
    | ServiceAccountOwnership
    | InvalidImagePullSecret
    | DatabaseProvisioning
    | PlatformControllerMissing
    | SecretGeneration
    | CredentialsMissing
    | InvalidCredentialsSecret
    | BuildFailed
    | PluginConfigRender
    | InvalidPluginSpec
    | TenantMismatch
    | InvalidTenant
    | InvalidIngressHost
    | InvalidBudget
    | PreviewProjectsTerminating
    | NamespaceNotProvisioned

  // A foreign error may be a bare Kubernetes error.
  datatype Cause =
    | Own(error: Error)
    | Foreign(kube: Option<KubeError>, next: Option<Cause>)

  function KubeStatusClass(kube: KubeError): Class
  {
    if kube.Api? && (kube.code == 404 || kube.code == 409) then DependencyNotReady else Transient
  }

  // The errors that only an edit of the Project can resolve.
  predicate NeedsEdit(error: Error)
  {
    error in {MissingField, InvalidPort, InvalidProbePeriod, InvalidStaticRoot, ConflictingPagesEnv, InvalidPluginSpec,
              DatabaseProvisioning, ServiceAccountOwnership, InvalidImagePullSecret, TenantMismatch, InvalidTenant,
              InvalidBudget, InvalidIngressHost, InvalidCredentialsSecret}
  }

  // The class of an error that wraps nothing.
  function PlainClass(error: Error): Class
    requires !error.Finalizer?
  {
    if NeedsEdit(error) then Permanent
    else match error
      case ResourceOwnershipConflict => OwnershipConflict
      case Kube(kube) => KubeStatusClass(kube)
      case PreviewProjectsTerminating => DependencyNotReady
      case NamespaceNotProvisioned => DependencyNotReady
      case _ => Transient
  }

  // Only an edit helps against an invalid specification; another owner's object is looked
  // at again after a fixed time; what is still missing or going away is awaited longer than
  // everything else.
  lemma ClassOfEveryPlainError(error: Error)
    requires !error.Finalizer?
    ensures ClassOf(error) == Permanent <==>
      || error.MissingField? || error.InvalidPort? || error.InvalidProbePeriod? || error.InvalidStaticRoot?
      || error.ConflictingPagesEnv? || error.InvalidPluginSpec? || error.DatabaseProvisioning?
      || error.ServiceAccountOwnership? || error.InvalidImagePullSecret? || error.TenantMismatch?
      || error.InvalidTenant? || error.InvalidBudget? || error.InvalidIngressHost? || error.InvalidCredentialsSecret?
    ensures ClassOf(error) == OwnershipConflict <==> error.ResourceOwnershipConflict?
    ensures ClassOf(error) == DependencyNotReady <==>
      || error.PreviewProjectsTerminating? || error.NamespaceNotProvisioned?
      || error == Kube(Api(404)) || error == Kube(Api(409))
  {
    assert NeedsEdit(error) ==> !error.Kube?;
  }

  // ---- Wrapping ----------------------------------------------------------------------

  datatype Layer = FinalizerLayer | ForeignLayer(kube: Option<KubeError>)

  // `cause` inside the layers, the first of which is the outermost.
  function Wrap(layers: seq<Layer>, cause: Cause): Cause
  {
    if layers == [] then cause
    else match layers[0]
      case FinalizerLayer => Own(Finalizer(Wrap(layers[1..], cause)))
      case ForeignLayer(kube) => Foreign(kube, Some(Wrap(layers[1..], cause)))
  }

  // What a chain comes down to: an error of the operator that wraps nothing, or a
  // foreign error without a source.
  predicate Core(cause: Cause)
  {
    if cause.Own? then !cause.error.Finalizer? else cause.next.None?
  }

  function CoreClass(core: Cause): Class
    requires Core(core)
  {
    if core.Own? then PlainClass(core.error) else Transient
  }

  function ClassOfCause(cause: Cause): Class
  {
    match cause
    case Own(error) => if error.Finalizer? then ClassOfCause(error.source) else PlainClass(error)
    case Foreign(_, next) => if next.None? then Transient else ClassOfCause(next.value)
  }

  function ClassOf(error: Error): Class
  {
    ClassOfCause(Own(error))
  }

  // Any depth and mixture of wrapping leaves the class of the core unchanged.
  lemma {:induction false} WrappingKeepsClass(layers: seq<Layer>, core: Cause)
    requires Core(core)
    ensures ClassOfCause(Wrap(layers, core)) == CoreClass(core)
  {
    if layers != [] {
      WrappingKeepsClass(layers[1..], core);
    }
  }

  // Every chain is a core in layers, so `WrappingKeepsClass` covers every error.
  lemma {:induction false} EveryCauseHasCore(cause: Cause) returns (layers: seq<Layer>, core: Cause)
    ensures Core(core) && cause == Wrap(layers, core)
    decreases cause
  {
    if Core(cause) {
      layers, core := [], cause;
    } else if cause.Own? {
      var inner;
      inner, core := EveryCauseHasCore(cause.error.source);
      layers := [FinalizerLayer] + inner;
    } else {
      var inner;
      inner, core := EveryCauseHasCore(cause.next.value);
      layers := [ForeignLayer(cause.kube)] + inner;
    }
  }

  // A Kubernetes error that the finalizer itself ran into is not an error of the
  // operator: inside the wrapper it is Transient, whatever its status, so it keeps
  // the class it has on its own exactly unless its status is 404 or 409.
  lemma FinalizerFailureLosesStatus(kube: KubeError, layers: seq<Layer>)
    ensures
      var failure := Finalizer(Foreign(None, Some(Foreign(Some(kube), None))));
      && ClassOf(failure) == Transient
      && ClassOfCause(Wrap(layers, Own(failure))) == Transient
      && (ClassOf(failure) == ClassOf(Kube(kube)) <==> kube !in {Api(404), Api(409)})
  {
    var core := Foreign(Some(kube), None);
    var all := layers + [FinalizerLayer, ForeignLayer(None)];
    WrapWraps(layers, [FinalizerLayer, ForeignLayer(None)], core);
    assert Wrap([ForeignLayer(None)], core) == Foreign(None, Some(core));
    assert [FinalizerLayer, ForeignLayer(None)][1..] == [ForeignLayer(None)];
    WrappingKeepsClass(all, core);
  }

  lemma {:induction false} WrapWraps(outer: seq<Layer>, inner: seq<Layer>, cause: Cause)
    ensures Wrap(outer + inner, cause) == Wrap(outer, Wrap(inner, cause))
  {
    if outer == [] {
      assert outer + inner == inner;
    } else {
      assert (outer + inner)[1..] == outer[1..] + inner;
      WrapWraps(outer[1..], inner, cause);
    }
  }

  // ---- The code ------------------------------------------------------------------------

  method BackoffClass(error: Error) returns (class_: Class)
    ensures class_ == ClassOf(error)
    decreases error, 0
  {
    match error
    case Finalizer(source) => class_ := NestedBackoffClass(source);
    case Kube(kube) => class_ := KubeStatusClass(kube);
    case ResourceOwnershipConflict => class_ := OwnershipConflict;
    case PreviewProjectsTerminating => class_ := DependencyNotReady;
    case NamespaceNotProvisioned => class_ := DependencyNotReady;
    case _ => class_ := if NeedsEdit(error) then Permanent else Transient;
  }

  // Walks the chain of sources to the first error of the operator.
  method NestedBackoffClass(cause: Cause) returns (class_: Class)
    ensures class_ == ClassOfCause(cause)
    decreases cause, 1
  {
    var source := cause;
    while true
      invariant ClassOfCause(source) == ClassOfCause(cause)
      invariant source == cause || source < cause
      decreases source
    {
      if source.Own? {
        class_ := BackoffClass(source.error);
        return;
      }
      if source.next.None? {
        return Transient;
      }
      source := source.next.value;
    }
  }
}

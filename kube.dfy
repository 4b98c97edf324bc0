/** Shapes shared by both controllers: object keys and metadata, the outcome
    tags the API client and the admission collaborator return, and the
    (Result, error) pair a reconcile hands back to the work queue. */
module Kube {

  datatype Option<+T> = None | Some(value: T)

  /** A namespaced name. A reconcile request is exactly one of these; a
      cluster-scoped object has the empty namespace. */
  datatype Key = Key(namespace: string, name: string)

  /** The part of ObjectMeta the controllers look at. */
  datatype Meta = Meta(
    namespace: string,
    name: string,
    labels: map<string, string>,
    annotations: map<string, string>,
    deletionTimestamp: Option<int>,
    finalizers: seq<string>)
  {
    /** The object carries a deletion timestamp: it is terminating. */
    predicate Terminating() { deletionTimestamp.Some? }
  }

  /** The error classes the controllers tell apart (apierrors.IsNotFound,
      apierrors.IsConflict, admission.IsPolicyServerNotReady); every other
      error is Other. */
  datatype ApiError = NotFound | Conflict | NotReady | Other

  /** What a call that returns only an error produced. */
  datatype Outcome = Ok | Fail(error: ApiError)

  /** What a call that reads something produced. */
  datatype Fetch<T> = Found(value: T) | Failed(error: ApiError)

  /** ctrl.Result; RequeueAfter is a whole number of seconds. */
  datatype Result = Result(requeue: bool, requeueAfter: nat)

  /** The zero ctrl.Result{}: no explicit requeue. */
  const Empty := Result(false, 0)

  /** The errors the controllers return, one tag per wrapping site. */
  datatype Failure =
    | CannotRetrievePolicyServer(cause: ApiError)
    | CouldNotGetPolicies(cause: ApiError)
    | StatusUpdateFailed(cause: ApiError)
    | ReconciliationFailed(cause: ApiError)
    | DeletionNotReconciled(cause: ApiError)
    | CannotUpdatePolicyServer(cause: ApiError)
    | PoliciesNotRemoved(policyServer: string)
    | CannotRetrieveAdmissionPolicy(cause: ApiError)

  /** The pair (ctrl.Result, error) a reconcile returns; err == None is a nil error. */
  datatype Reply = Reply(result: Result, err: Option<Failure>)

  /** Finalizer that both PolicyServers and policies carry (constants.KubewardenFinalizer). */
  const KubewardenFinalizer: string := "kubewarden"

  /** Label a policy-server Pod carries, holding its PolicyServer's name
      (constants.PolicyServerLabelKey). */
  const PolicyServerLabelKey: string := "kubewarden/policy-server"

  /** Marker label every webhook configuration the controller owns carries. */
  const WebhookMarkerLabel: string := "kubewarden"

  /** Label naming the scope of the policy a webhook configuration serves
      (constants.WebhookConfigurationPolicyScopeLabelKey). */
  const WebhookScopeLabelKey: string := "kubewardenPolicyScope"

  /** Annotation naming the policy a webhook configuration serves
      (constants.WebhookConfigurationPolicyNameAnnotationKey). */
  const WebhookPolicyNameAnnotationKey: string := "kubewardenPolicyName"

  /** The two policy kinds; they differ only in scope. */
  datatype PolicyKind = ClusterAdmissionPolicyKind | AdmissionPolicyKind

  /** A policy of either kind; `policyServer` is its Spec.PolicyServer. */
  datatype Policy = Policy(kind: PolicyKind, meta: Meta, policyServer: string)
  {
    predicate Terminating() { meta.Terminating() }
  }

  datatype PolicyServer = PolicyServer(meta: Meta)

  datatype ConfigMap = ConfigMap(meta: Meta, data: map<string, string>)

  /** client.Object as a closed variant: a Go type assertion becomes a test
      of the constructor. */
  datatype Object =
    | PodObject(podMeta: Meta)
    | ConfigMapObject(configMap: ConfigMap)
    | PolicyServerObject(server: PolicyServer)
    | PolicyObject(policy: Policy)
    | WebhookConfigurationObject(webhookMeta: Meta, mutating: bool)
    | OtherObject(otherMeta: Meta)
  {
    /** GetLabels/GetAnnotations/GetName work on every kind of object. */
    function Meta(): Meta
    {
      match this
      case PodObject(m) => m
      case ConfigMapObject(cm) => cm.meta
      case PolicyServerObject(s) => s.meta
      case PolicyObject(p) => p.meta
      case WebhookConfigurationObject(m, _) => m
      case OtherObject(m) => m
    }
  }
}

/** The ClusterAdmissionPolicy controller's entry point and the event
    routers that turn a change to a Pod, a PolicyServer or a webhook
    configuration into ClusterAdmissionPolicy reconcile requests. The Pod and
    PolicyServer routers share one step that decodes a ConfigMap's payload.
    Reads through the uncached API reader, the payload decoder, the naming
    rule and the shared reconcile routine are oracles in an `Env`. */
module ClusterAdmissionPolicyController {
  import opened Kube

  /** The decoded correlation payload: a policy-server name mapped to the
      identities of the policies bound to it. */
  type PolicyMap = map<string, seq<Key>>

  /** The collaborators the controller consults. */
  datatype Env = Env(
    readPolicy: Key -> Fetch<Policy>,             // APIReader.Get of a ClusterAdmissionPolicy
    readConfigMap: Key -> Fetch<ConfigMap>,       // APIReader.Get of a ConfigMap
    decodePolicyMap: ConfigMap -> Option<PolicyMap>, // getPolicyMapFromConfigMap; None is a decode error
    toRequests: PolicyMap -> seq<Key>,            // PolicyMap.ToClusterAdmissionPolicyReconcileRequests
    deploymentName: string -> string,             // naming.PolicyServerDeploymentNameForPolicyServerName
    deploymentsNamespace: string,                 // Reconciler.DeploymentsNamespace
    startReconciling: Policy -> Reply)            // the routine shared by both policy kinds

  /** Reconcile: read the policy directly; a missing policy is a silent
      no-op, any other read error is surfaced, and a policy that was read is
      handed to the shared routine whose reply is returned as it is. */
  function Reconcile(env: Env, key: Key): (r: Reply)
    ensures env.readPolicy(key) == Failed(NotFound) ==> r == Reply(Empty, None)
    ensures env.readPolicy(key).Failed? && env.readPolicy(key).error != NotFound ==>
      r == Reply(Empty, Some(CannotRetrieveAdmissionPolicy(env.readPolicy(key).error)))
    ensures env.readPolicy(key).Found? ==> r == env.startReconciling(env.readPolicy(key).value)
  {
    match env.readPolicy(key)
    case Failed(NotFound) => Reply(Empty, None)
    case Failed(e) => Reply(Empty, Some(CannotRetrieveAdmissionPolicy(e)))
    case Found(policy) => env.startReconciling(policy)
  }

  /** The payload step shared by the Pod and PolicyServer routers (no
      ConfigMap is watched): the policies listed in a ConfigMap's decoded
      payload; anything that is not a ConfigMap, or does not decode, yields
      no request. */
  function RequestsForConfigMap(env: Env, obj: Object): (r: seq<Key>)
    ensures !obj.ConfigMapObject? ==> r == []
    ensures obj.ConfigMapObject? && env.decodePolicyMap(obj.configMap).None? ==> r == []
    ensures obj.ConfigMapObject? && env.decodePolicyMap(obj.configMap).Some? ==>
      r == env.toRequests(env.decodePolicyMap(obj.configMap).value)
  {
    match obj
    case ConfigMapObject(configMap) =>
      (match env.decodePolicyMap(configMap)
       case None => []
       case Some(policyMap) => env.toRequests(policyMap))
    case _ => []
  }

  /** Reads the ConfigMap at `key` (named after a policy-server deployment)
      and routes it; a failed read yields no request. */
  function RequestsForPayloadAt(env: Env, key: Key): (r: seq<Key>)
    ensures env.readConfigMap(key).Failed? ==> r == []
    ensures env.readConfigMap(key).Found? ==>
      r == RequestsForConfigMap(env, ConfigMapObject(env.readConfigMap(key).value))
  {
    match env.readConfigMap(key)
    case Failed(_) => []
    case Found(configMap) => RequestsForConfigMap(env, ConfigMapObject(configMap))
  }

  /** The Pod router: a policy-server Pod's label names its PolicyServer;
      the payload is read from the ConfigMap named after that server's
      deployment, in the Pod's own namespace. */
  function RequestsForPod(env: Env, obj: Object): (r: seq<Key>)
    ensures !obj.PodObject? ==> r == []
    ensures obj.PodObject? && PolicyServerLabelKey !in obj.podMeta.labels ==> r == []
    ensures obj.PodObject? && PolicyServerLabelKey in obj.podMeta.labels ==>
      r == RequestsForPayloadAt(env,
        Key(obj.podMeta.namespace, env.deploymentName(obj.podMeta.labels[PolicyServerLabelKey])))
    ensures r != [] ==> obj.PodObject? && PolicyServerLabelKey in obj.podMeta.labels
  {
    match obj
    case PodObject(meta) =>
      if PolicyServerLabelKey !in meta.labels then []
      else
        var deployment := env.deploymentName(meta.labels[PolicyServerLabelKey]);
        RequestsForPayloadAt(env, Key(meta.namespace, deployment))
    case _ => []
  }

  /** The PolicyServer router: the same payload, read from the ConfigMap
      named after the server's deployment in the deployments namespace. */
  function RequestsForPolicyServer(env: Env, obj: Object): (r: seq<Key>)
    ensures !obj.PolicyServerObject? ==> r == []
    ensures obj.PolicyServerObject? ==>
      r == RequestsForPayloadAt(env,
        Key(env.deploymentsNamespace, env.deploymentName(obj.server.meta.name)))
  {
    match obj
    case PolicyServerObject(server) =>
      RequestsForPayloadAt(env, Key(env.deploymentsNamespace, env.deploymentName(server.meta.name)))
    case _ => []
  }

  /** The webhook-configuration router: only a configuration carrying the
      marker label, a scope label equal to "cluster" and the policy-name
      annotation yields a request, exactly one, for the named policy. */
  function RequestsForWebhookConfiguration(obj: Object): (r: seq<Key>)
    ensures WebhookMarkerLabel !in obj.Meta().labels ==> r == []
    ensures WebhookScopeLabelKey !in obj.Meta().labels ==> r == []
    ensures (WebhookScopeLabelKey in obj.Meta().labels &&
             obj.Meta().labels[WebhookScopeLabelKey] != "cluster") ==> r == []
    ensures WebhookPolicyNameAnnotationKey !in obj.Meta().annotations ==> r == []
    ensures (WebhookMarkerLabel in obj.Meta().labels &&
             WebhookScopeLabelKey in obj.Meta().labels &&
             obj.Meta().labels[WebhookScopeLabelKey] == "cluster" &&
             WebhookPolicyNameAnnotationKey in obj.Meta().annotations) ==>
      r == [Key("", obj.Meta().annotations[WebhookPolicyNameAnnotationKey])]
  {
    var labels, annotations := obj.Meta().labels, obj.Meta().annotations;
    if WebhookMarkerLabel !in labels then []
    else if WebhookScopeLabelKey !in labels then []
    else if labels[WebhookScopeLabelKey] != "cluster" then []
    else if WebhookPolicyNameAnnotationKey !in annotations then []
    else [Key("", annotations[WebhookPolicyNameAnnotationKey])]
  }
}

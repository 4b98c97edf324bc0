/** What the ClusterAdmissionPolicy controller's entry point and routers
    promise beyond their own contracts: how the routers relate to each other
    and what they ignore. */
module ClusterAdmissionPolicyProperties {
  import opened Kube
  import opened ClusterAdmissionPolicyController

  /** A Pod running in the deployments namespace and labelled with a
      server's name is routed exactly like a change to that PolicyServer:
      both read the same ConfigMap. */
  lemma PodAndPolicyServerRoutersAgree(env: Env, podMeta: Meta, server: PolicyServer)
    requires podMeta.namespace == env.deploymentsNamespace
    requires PolicyServerLabelKey in podMeta.labels && podMeta.labels[PolicyServerLabelKey] == server.meta.name
    ensures RequestsForPod(env, PodObject(podMeta)) == RequestsForPolicyServer(env, PolicyServerObject(server))
  {
  }

  /** Two objects that agree on the marker label, the scope label and the
      policy-name annotation are routed alike: no other label, annotation,
      name or kind is looked at. */
  lemma WebhookRoutingReadsOnlyItsKeys(a: Object, b: Object)
    requires (WebhookMarkerLabel in a.Meta().labels) == (WebhookMarkerLabel in b.Meta().labels)
    requires (WebhookScopeLabelKey in a.Meta().labels) == (WebhookScopeLabelKey in b.Meta().labels)
    requires WebhookScopeLabelKey in a.Meta().labels ==>
      a.Meta().labels[WebhookScopeLabelKey] == b.Meta().labels[WebhookScopeLabelKey]
    requires (WebhookPolicyNameAnnotationKey in a.Meta().annotations) ==
      (WebhookPolicyNameAnnotationKey in b.Meta().annotations)
    requires WebhookPolicyNameAnnotationKey in a.Meta().annotations ==>
      a.Meta().annotations[WebhookPolicyNameAnnotationKey] == b.Meta().annotations[WebhookPolicyNameAnnotationKey]
    ensures RequestsForWebhookConfiguration(a) == RequestsForWebhookConfiguration(b)
  {
  }

  /** A webhook configuration yields at most one request, always for a
      cluster-scoped (namespace-less) policy. */
  lemma WebhookRoutingYieldsAtMostOne(obj: Object)
    ensures |RequestsForWebhookConfiguration(obj)| <= 1
    ensures forall r :: r in RequestsForWebhookConfiguration(obj) ==> r.namespace == ""
  {
  }

  /** When the direct read fails, the shared routine is not consulted: any
      other routine gives the same reply. */
  lemma ReadFailureSkipsSharedRoutine(env: Env, key: Key, start: Policy -> Reply)
    requires env.readPolicy(key).Failed?
    ensures Reconcile(env.(startReconciling := start), key) == Reconcile(env, key)
  {
  }

  /** When the ConfigMap read fails, the decoder is not consulted: any other
      decoder gives the same (empty) answer. */
  lemma ReadFailureSkipsDecoder(env: Env, key: Key, decode: ConfigMap -> Option<PolicyMap>)
    requires env.readConfigMap(key).Failed?
    ensures RequestsForPayloadAt(env.(decodePolicyMap := decode), key) == RequestsForPayloadAt(env, key) == []
  {
  }

  /** The Pod router reads in the Pod's own namespace, so two Pods that
      differ only in namespace can be routed differently. */
  lemma PodRoutingDependsOnPodNamespace()
    ensures
      var env := Env(
        (_: Key) => Failed(NotFound),
        (k: Key) => if k.namespace == "kubewarden" then Found(ConfigMap(Meta("kubewarden", k.name, map[], map[], None, []), map[]))
             else Failed(NotFound),
        _ => Some(map[]),
        _ => [Key("", "p")],
        n => n,
        "kubewarden",
        _ => Reply(Empty, None));
      var labels := map[PolicyServerLabelKey := "default"];
      RequestsForPod(env, PodObject(Meta("kubewarden", "pod", labels, map[], None, []))) == [Key("", "p")] &&
      RequestsForPod(env, PodObject(Meta("elsewhere", "pod", labels, map[], None, []))) == []
  {
  }
}

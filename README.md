# Kubewarden controllers: reconcile decisions and event routing

A Dafny model of the decision logic of two Kubernetes controllers of the
Kubewarden admission-policy platform.

- **PolicyServer controller.** It reads a PolicyServer and lists the policies
  bound to it. A server without a deletion timestamp is converged, and its
  status is then written back. A server that is being deleted goes through the
  finalizer protocol:
  - while bound policies remain, every policy not already terminating is
    deleted and the server is requeued;
  - once none remain, the domain teardown runs, the `kubewarden` finalizer is
    removed and the server is updated.
- **ClusterAdmissionPolicy controller.** Its entry point reads the policy
  directly and hands it to the routine shared by both policy kinds. Its event
  routers turn a change to a Pod, a PolicyServer or a webhook configuration
  into ClusterAdmissionPolicy reconcile requests. The Pod and PolicyServer
  routers both read a ConfigMap and decode its payload in one shared step;
  ConfigMaps themselves are not watched.

The API client, the admission collaborator (`GetPolicies`, `Reconcile`,
`ReconcileDeletion`), the uncached reader, the correlation-payload decoder and
the deployment-naming rule are oracles. They are datatypes of function-typed
fields (`Cluster`, `Env`) that return outcome tags:
`Ok | Fail(NotFound | Conflict | NotReady | Other)`. Only the controllers' own
branching is modelled.

The PolicyServer reconciler is the class `PolicyServerReconciler`. Its
methods mirror `Reconcile`, `reconcileDeletion` and
`deletePoliciesAndRequeue`. They append every external call they issue to the
field `trace`. Each method is proved equal to a specification function that
returns the reply and the calls issued (`ReconcileRun`, `DeletionRun`,
`DeletesOf(Active(...))` with `DeleteErrors`). The ordering properties are
lemmas over those functions. Two examples:

- teardown is never called while policies remain;
- the finalizer-removing Update is the last call and follows a successful
  teardown.

The pure parts are functions with contracts:

- the mapping from a convergence outcome to a reply;
- the field-index extractors and the policy watches;
- every ClusterAdmissionPolicy router.

Modules: `Kube` (shared shapes), `PolicyServerController`,
`PolicyServerProperties`, `PolicyServerIndex`,
`ClusterAdmissionPolicyController`, `ClusterAdmissionPolicyProperties`.

The Pod router reads the ConfigMap in the Pod's own namespace
(controllers/clusteradmissionpolicy_controller.go:130-133), so its result can
depend on that namespace; `PodRoutingDependsOnPodNamespace` shows two such
Pods routed differently.
`PodAndPolicyServerRoutersAgree` shows that a Pod in the deployments namespace
is routed exactly like its PolicyServer.

## Model

| member | source | states |
|---|---|---|
| `PolicyServerController.PolicyServerReconciler.Reconcile` | controllers/policyserver_controller.go:61-86 | the reply and the calls appended to the trace are those of `ReconcileRun`: Get, then GetPolicies, then either the deletion branch or Converge followed by the status write |
| `PolicyServerController.PolicyServerReconciler.ReconcileDeletion` | controllers/policyserver_controller.go:102-123 | reply and calls are those of `DeletionRun`: the delete sweep while policies remain, otherwise teardown, then Update of the server without its finalizer |
| `PolicyServerController.PolicyServerReconciler.DeletePoliciesAndRequeue` | controllers/policyserver_controller.go:125-143 | the loop issues one Delete per policy not already terminating, in list order, never stopping early; it collects exactly `DeleteErrors` and replies with `SweepReply` of them |
| `PolicyServerController.RemoveFinalizer` | controllers/policyserver_controller.go:113 | the finalizer no longer occurs; every other finalizer keeps its number of occurrences |
| `PolicyServerController.WithoutFinalizer` | controllers/policyserver_controller.go:113-114 | the server handed to Update lacks the `kubewarden` finalizer, keeps every other finalizer as often as it occurred, and differs from the one read in nothing else |
| `PolicyServerController.ConvergeReply` | controllers/policyserver_controller.go:88-100 | NotReady gives `{Requeue: true, RequeueAfter: 5s}` and no error; any other failure gives an empty Result and a reconciliation error; success gives an empty Result and no error |
| `PolicyServerController.Active` | controllers/policyserver_controller.go:127-131 | the kept policies come from the list and none of them is terminating |
| `PolicyServerController.ActiveCounts` | controllers/policyserver_controller.go:127-131 | a non-terminating policy is kept as often as it is listed; a terminating one never is |
| `PolicyServerController.DeletesOf` | controllers/policyserver_controller.go:132 | one Delete call per policy, targeting that policy, in order |
| `PolicyServerController.SweepStep` | controllers/policyserver_controller.go:127-135 | visiting one more policy adds its Delete unless it is terminating, and adds its error only when the delete failed with something other than NotFound |
| `PolicyServerController.SweepReply` | controllers/policyserver_controller.go:137-142 | an error (with an empty Result) exactly when some delete error was collected; otherwise `{Requeue: true}` with no error |
| `PolicyServerController.FinalUpdateReply` | controllers/policyserver_controller.go:114-122 | the final Update yields no error on success or Conflict, and a wrapped update error otherwise; the Result is always empty |
| `PolicyServerProperties.DeleteErrorsExact` | controllers/policyserver_controller.go:127-137 | collected errors never include NotFound, and some error is collected iff a policy that was not terminating failed to delete for another reason |
| `PolicyServerProperties.DeletesOfCounts` | controllers/policyserver_controller.go:132 | each listed policy is the target of exactly as many Delete calls as it has entries |
| `PolicyServerProperties.SweepIssuesOnlyDeletes` | controllers/policyserver_controller.go:103-107 | with policies bound, the deletion branch issues only Delete calls (no teardown, no Update), and which ones does not depend on the delete outcomes |
| `PolicyServerProperties.SweepDeletesEachActivePolicyOnce` | controllers/policyserver_controller.go:127-135 | Delete is issued once per entry of each non-terminating policy and never for a terminating one |
| `PolicyServerProperties.SweepSkipsTerminatingPolicy` | controllers/policyserver_controller.go:127-135 | for two active policies around a terminating one, exactly the two active ones are deleted, in order |
| `PolicyServerProperties.SweepVerdict` | controllers/policyserver_controller.go:137-142 | the sweep returns an error iff some non-NotFound delete failure occurred, and otherwise `{Requeue: true}` with no error |
| `PolicyServerProperties.ReadFailureEndsAttempt` | controllers/policyserver_controller.go:63-68 | a NotFound read gives an empty Result and no error, any other read error is surfaced, and no other call is issued |
| `PolicyServerProperties.ListFailureEndsAttempt` | controllers/policyserver_controller.go:70-73 | a GetPolicies failure is surfaced before either branch; no delete, teardown, Update or status write follows |
| `PolicyServerProperties.StatusWrittenAfterConvergence` | controllers/policyserver_controller.go:79-85 | outside deletion the status is written after convergence whatever its outcome; a failed write replaces the reply, a successful one returns the convergence reply unchanged |
| `PolicyServerProperties.NotReadyRequeuesAfterFiveSeconds` | controllers/policyserver_controller.go:89-96 | a not-ready server whose status write succeeds is requeued after 5 seconds with no error |
| `PolicyServerProperties.DeletionNeverWritesStatus` | controllers/policyserver_controller.go:75-77 | a terminating server is never converged and its status is never written |
| `PolicyServerProperties.NoTeardownWhilePoliciesRemain` | controllers/policyserver_controller.go:103-109 | teardown is issued only for a terminating server whose policy list came back empty |
| `PolicyServerProperties.FinalizerRemovedOnlyAfterTeardown` | controllers/policyserver_controller.go:109-114 | the Update is the last call, comes right after a successful teardown of the same server, and carries that server without its finalizer |
| `PolicyServerProperties.ConflictOnFinalUpdateIsSuccess` | controllers/policyserver_controller.go:114-118 | a Conflict on the finalizer-removing Update ends the attempt with no error |
| `PolicyServerProperties.TeardownFailureKeepsFinalizer` | controllers/policyserver_controller.go:109-111 | a failed teardown is surfaced and no Update (so no finalizer removal) is issued |
| `PolicyServerIndex.IndexPolicyServer` | controllers/policyserver_controller.go:147-165 | a policy of the indexed kind has the single key `Spec.PolicyServer`; any other object has none |
| `PolicyServerIndex.PolicyServerRequests` | controllers/policyserver_controller.go:171-208 | a policy of the watched kind enqueues exactly one request, named `Spec.PolicyServer`, with an empty namespace; any other object enqueues none |
| `PolicyServerIndex.WatchEnqueuesIndexedServer` | controllers/policyserver_controller.go:147-208 | a policy enqueues a server iff it is indexed under that server's name, iff its reference names that server |
| `PolicyServerIndex.EveryPolicyHasOneServer` | controllers/policyserver_controller.go:153 | every policy is indexed and enqueued under exactly its own `Spec.PolicyServer` |
| `ClusterAdmissionPolicyController.Reconcile` | controllers/clusteradmissionpolicy_controller.go:64-74 | a NotFound read is a silent no-op, any other read error is surfaced, and otherwise the shared routine's reply is returned unchanged |
| `ClusterAdmissionPolicyController.RequestsForConfigMap` | controllers/clusteradmissionpolicy_controller.go:107-117 | the payload step shared by the Pod and PolicyServer routers: a non-ConfigMap or an undecodable payload yields no request; otherwise the decoded payload's requests |
| `ClusterAdmissionPolicyController.RequestsForPayloadAt` | controllers/clusteradmissionpolicy_controller.go:129-137 | a failed ConfigMap read yields no request; otherwise the ConfigMap that was read is routed |
| `ClusterAdmissionPolicyController.RequestsForPod` | controllers/clusteradmissionpolicy_controller.go:119-138 | a non-Pod or an unlabelled Pod yields no request; otherwise the payload is read from the derived deployment name in the Pod's own namespace |
| `ClusterAdmissionPolicyController.RequestsForPolicyServer` | controllers/clusteradmissionpolicy_controller.go:140-155 | a non-PolicyServer yields no request; otherwise the payload is read from the derived deployment name in the deployments namespace |
| `ClusterAdmissionPolicyController.RequestsForWebhookConfiguration` | controllers/clusteradmissionpolicy_controller.go:157-186 | no marker label, no scope label, a scope other than `"cluster"`, or no policy-name annotation each yield no request; otherwise exactly one request for the annotated name with an empty namespace |
| `ClusterAdmissionPolicyProperties.PodAndPolicyServerRoutersAgree` | controllers/clusteradmissionpolicy_controller.go:119-155 | a Pod in the deployments namespace labelled with a server's name is routed exactly like that PolicyServer |
| `ClusterAdmissionPolicyProperties.WebhookRoutingReadsOnlyItsKeys` | controllers/clusteradmissionpolicy_controller.go:157-186 | objects that agree on the marker label, the scope label and the policy-name annotation are routed alike |
| `ClusterAdmissionPolicyProperties.WebhookRoutingYieldsAtMostOne` | controllers/clusteradmissionpolicy_controller.go:179-185 | at most one request, always with an empty namespace |
| `ClusterAdmissionPolicyProperties.ReadFailureSkipsSharedRoutine` | controllers/clusteradmissionpolicy_controller.go:66-71 | when the read fails, the reply does not depend on the shared routine |
| `ClusterAdmissionPolicyProperties.ReadFailureSkipsDecoder` | controllers/clusteradmissionpolicy_controller.go:134-136 | when the ConfigMap read fails, the answer is empty and does not depend on the decoder |
| `ClusterAdmissionPolicyProperties.PodRoutingDependsOnPodNamespace` | controllers/clusteradmissionpolicy_controller.go:130-133 | two Pods that differ only in namespace can be routed differently, because the read uses the Pod's namespace |

## Left out

- `SetupWithManager` wiring is left out. That covers the watch and index
  registration, and the errors returned when registration fails
  (policyserver_controller.go:155-157, 166-168, 211-214;
  clusteradmissionpolicy_controller.go:78-104). It is framework wiring.
  The closures it registers are modelled.
- RBAC markers and log calls are left out: they do not affect results.
- The bodies of the API client (`Get`, `Update`, `Delete`, `Status().Update`,
  `APIReader.Get`) are not part of this model. Each is an oracle that returns
  an outcome tag.
- The admission collaborator is not part of this model. That covers
  `GetPolicies`, `Reconcile`, `ReconcileDeletion`, `IsPolicyServerNotReady`
  and `startReconciling`; each is an oracle.
- `naming.PolicyServerDeploymentNameForPolicyServerName`,
  `getPolicyMapFromConfigMap` and `ToClusterAdmissionPolicyReconcileRequests`
  are not part of this model. They are oracles, with decoding modelled as
  success or failure.
- No change a collaborator makes to the server through its pointer is
  modelled. `GetPolicies` (policyserver_controller.go:70), the convergence
  `Reconcile` (:89) and `ReconcileDeletion` (:109) all receive the server by
  pointer. `WriteStatus` records the server as it was read, and the final
  `UpdateServer` carries `WithoutFinalizer` of the server as it was read,
  not as it stands after `ReconcileDeletion`.
- The oracles are deterministic in their arguments. A policy listed twice
  receives the same Delete outcome both times.
- Error messages are reduced to one tag per wrapping site. The joined delete
  errors are only logged by the source, so they are not part of the returned
  error either.
- The work queue, worker concurrency, `context` cancellation and real time are
  left out. `RequeueAfter` is a whole number of seconds.
- Go type assertions are a closed variant of object kinds. A non-matching kind
  yields no key and no request.
- The values of the label, annotation and finalizer keys come from
  internal/pkg/constants, which is not part of this model. The marker label
  `"kubewarden"` and the scope value `"cluster"` are literals in the source.
  No proof depends on the other values.

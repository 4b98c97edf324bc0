/** The PolicyServer controller: convergence, the finalizer-gated deletion
    protocol and the ordering of the external calls it issues. The API
    client and the admission collaborator are a `Cluster` of oracles; the
    reconciler records every call it issues in `trace`. */
module PolicyServerController {
  import opened Kube

  /** One external call issued by the reconciler. */
  datatype Call =
    | GetServer(key: Key)                                  // client Get
    | ListPolicies(server: PolicyServer)                   // admission GetPolicies
    | Converge(server: PolicyServer, policies: seq<Policy>) // admission Reconcile
    | WriteStatus(server: PolicyServer)                    // Status().Update
    | DeletePolicy(policy: Policy)                         // client Delete
    | TearDown(server: PolicyServer)                       // admission ReconcileDeletion
    | UpdateServer(server: PolicyServer)                   // client Update

  /** The answers the outside world gives to each kind of call. */
  datatype Cluster = Cluster(
    getServer: Key -> Fetch<PolicyServer>,
    listPolicies: PolicyServer -> Fetch<seq<Policy>>,
    converge: (PolicyServer, seq<Policy>) -> Outcome,
    writeStatus: PolicyServer -> Outcome,
    deletePolicy: Policy -> Outcome,
    tearDown: PolicyServer -> Outcome,
    updateServer: PolicyServer -> Outcome)

  /** A whole reconcile attempt: what it returns and the calls it issued, in order. */
  datatype Run = Run(reply: Reply, calls: seq<Call>)

  /** Delay, in seconds, before retrying a policy server that is not ready. */
  const NotReadyRequeueSeconds: nat := 5

  /** controllerutil.RemoveFinalizer: drop every occurrence of `f` and keep
      every other finalizer as often as it occurs. */
  function RemoveFinalizer(fs: seq<string>, f: string): (r: seq<string>)
    ensures f !in r
    ensures forall x :: x in r <==> x in fs && x != f
    ensures forall x :: x != f ==> multiset(r)[x] == multiset(fs)[x]
  {
    if fs == [] then []
    else
      assert fs == [fs[0]] + fs[1..];
      if fs[0] == f then RemoveFinalizer(fs[1..], f)
      else [fs[0]] + RemoveFinalizer(fs[1..], f)
  }

  /** The policy server as reconcileDeletion hands it to Update. */
  function WithoutFinalizer(s: PolicyServer): (r: PolicyServer)
    ensures KubewardenFinalizer !in r.meta.finalizers
    ensures forall x :: x != KubewardenFinalizer ==>
      multiset(r.meta.finalizers)[x] == multiset(s.meta.finalizers)[x]
    ensures r.meta == s.meta.(finalizers := r.meta.finalizers)
  {
    s.(meta := s.meta.(finalizers := RemoveFinalizer(s.meta.finalizers, KubewardenFinalizer)))
  }

  /** `reconcile`: the collaborator's convergence outcome as a reply. */
  function ConvergeReply(o: Outcome): (r: Reply)
    ensures r.err == None <==> o == Ok || o == Fail(NotReady)
    ensures r.result.requeue <==> o == Fail(NotReady)
    ensures r.result.requeue ==> r.result.requeueAfter == NotReadyRequeueSeconds
    ensures !r.result.requeue ==> r.result == Empty
    ensures r.err.Some? ==> r.err == Some(ReconciliationFailed(o.error))
  {
    match o
    case Ok => Reply(Empty, None)
    case Fail(NotReady) => Reply(Result(true, NotReadyRequeueSeconds), None)
    case Fail(e) => Reply(Empty, Some(ReconciliationFailed(e)))
  }

  /** The bound policies that do not carry a deletion timestamp, in list order. */
  function Active(policies: seq<Policy>): (r: seq<Policy>)
    ensures |r| <= |policies|
    ensures forall q :: q in r ==> q in policies && !q.Terminating()
  {
    if policies == [] then []
    else
      var init, last := policies[..|policies| - 1], policies[|policies| - 1];
      if last.Terminating() then Active(init) else Active(init) + [last]
  }

  /** Each policy without a deletion timestamp is kept as often as it is
      listed; every terminating policy is dropped. */
  lemma {:induction false} ActiveCounts(policies: seq<Policy>, p: Policy)
    ensures multiset(Active(policies))[p] == if p.Terminating() then 0 else multiset(policies)[p]
  {
    if policies != [] {
      var init, last := policies[..|policies| - 1], policies[|policies| - 1];
      assert policies == init + [last];
      ActiveCounts(init, p);
    }
  }

  /** One Delete call per policy, in order. */
  function DeletesOf(policies: seq<Policy>): (r: seq<Call>)
    ensures |r| == |policies|
    ensures forall i :: 0 <= i < |policies| ==> r[i] == DeletePolicy(policies[i])
  {
    seq(|policies|, i requires 0 <= i < |policies| => DeletePolicy(policies[i]))
  }

  /** One more visited policy extends the delete calls and the collected errors by at most one. */
  lemma SweepStep(c: Cluster, policies: seq<Policy>, i: nat)
    requires i < |policies|
    ensures DeletesOf(Active(policies[..i + 1])) ==
      DeletesOf(Active(policies[..i])) + (if policies[i].Terminating() then [] else [DeletePolicy(policies[i])])
    ensures DeleteErrors(c, policies[..i + 1]) ==
      DeleteErrors(c, policies[..i]) +
      (if !policies[i].Terminating() && Blocking(c.deletePolicy(policies[i])) then [c.deletePolicy(policies[i]).error] else [])
  {
    assert policies[..i + 1][..i] == policies[..i];
  }

  /** A delete outcome that the sweep records: a failure other than NotFound. */
  predicate Blocking(o: Outcome)
  {
    o.Fail? && o.error != NotFound
  }

  /** The errors the delete sweep collects, in the order it meets them. */
  function DeleteErrors(c: Cluster, policies: seq<Policy>): seq<ApiError>
  {
    if policies == [] then []
    else
      var init, last := policies[..|policies| - 1], policies[|policies| - 1];
      if !last.Terminating() && Blocking(c.deletePolicy(last))
      then DeleteErrors(c, init) + [c.deletePolicy(last).error]
      else DeleteErrors(c, init)
  }

  /** The end of deletePoliciesAndRequeue: any collected error is surfaced,
      otherwise an immediate requeue. */
  function SweepReply(s: PolicyServer, errors: seq<ApiError>): (r: Reply)
    ensures r.err.Some? <==> errors != []
    ensures r.err.Some? ==> r.result == Empty && r.err.value == PoliciesNotRemoved(s.meta.name)
    ensures r.err.None? ==> r.result == Result(true, 0)
  {
    if errors != [] then Reply(Empty, Some(PoliciesNotRemoved(s.meta.name)))
    else Reply(Result(true, 0), None)
  }

  /** The end of reconcileDeletion: the reply to the final Update; a Conflict
      counts as success. */
  function FinalUpdateReply(o: Outcome): (r: Reply)
    ensures r.result == Empty
    ensures r.err == None <==> o == Ok || o == Fail(Conflict)
    ensures r.err.Some? ==> r.err.value == CannotUpdatePolicyServer(o.error)
  {
    match o
    case Ok => Reply(Empty, None)
    case Fail(Conflict) => Reply(Empty, None)
    case Fail(e) => Reply(Empty, Some(CannotUpdatePolicyServer(e)))
  }

  /** Specification of reconcileDeletion. */
  function DeletionRun(c: Cluster, s: PolicyServer, policies: seq<Policy>): Run
  {
    if |policies| != 0 then
      Run(SweepReply(s, DeleteErrors(c, policies)), DeletesOf(Active(policies)))
    else
      match c.tearDown(s)
      case Fail(e) => Run(Reply(Empty, Some(DeletionNotReconciled(e))), [TearDown(s)])
      case Ok =>
        var s' := WithoutFinalizer(s);
        Run(FinalUpdateReply(c.updateServer(s')), [TearDown(s), UpdateServer(s')])
  }

  /** Specification of Reconcile. */
  function ReconcileRun(c: Cluster, key: Key): Run
  {
    match c.getServer(key)
    case Failed(NotFound) => Run(Reply(Empty, None), [GetServer(key)])
    case Failed(e) => Run(Reply(Empty, Some(CannotRetrievePolicyServer(e))), [GetServer(key)])
    case Found(s) =>
      match c.listPolicies(s)
      case Failed(e) =>
        Run(Reply(Empty, Some(CouldNotGetPolicies(e))), [GetServer(key), ListPolicies(s)])
      case Found(policies) =>
        var prefix := [GetServer(key), ListPolicies(s)];
        if s.meta.Terminating() then
          var d := DeletionRun(c, s, policies);
          Run(d.reply, prefix + d.calls)
        else
          var converged := ConvergeReply(c.converge(s, policies));
          var status := c.writeStatus(s);
          Run(if status.Fail? then Reply(Empty, Some(StatusUpdateFailed(status.error))) else converged,
              prefix + [Converge(s, policies), WriteStatus(s)])
  }

  class PolicyServerReconciler {
    const cluster: Cluster
    /** Every external call issued so far, oldest first. */
    var trace: seq<Call>

    constructor (cluster: Cluster)
      ensures this.cluster == cluster && trace == []
    {
      this.cluster := cluster;
      trace := [];
    }

    /** Reconcile: read the server, list its policies, then either run the
        deletion branch or converge and write the status back. */
    method Reconcile(key: Key) returns (reply: Reply)
      modifies this
      ensures reply == ReconcileRun(cluster, key).reply
      ensures trace == old(trace) + ReconcileRun(cluster, key).calls
    {
      trace := trace + [GetServer(key)];
      var got := cluster.getServer(key);
      if got.Failed? {
        if got.error == NotFound {
          return Reply(Empty, None);
        }
        return Reply(Empty, Some(CannotRetrievePolicyServer(got.error)));
      }
      var s := got.value;

      trace := trace + [ListPolicies(s)];
      var listed := cluster.listPolicies(s);
      if listed.Failed? {
        return Reply(Empty, Some(CouldNotGetPolicies(listed.error)));
      }
      var policies := listed.value;

      if s.meta.Terminating() {
        reply := ReconcileDeletion(s, policies);
        return;
      }

      trace := trace + [Converge(s, policies)];
      var converged := ConvergeReply(cluster.converge(s, policies));

      trace := trace + [WriteStatus(s)];
      var status := cluster.writeStatus(s);
      if status.Fail? {
        return Reply(Empty, Some(StatusUpdateFailed(status.error)));
      }
      reply := converged;
    }

    /** reconcileDeletion: policies first; teardown and finalizer removal
        only once none are left. */
    method ReconcileDeletion(s: PolicyServer, policies: seq<Policy>) returns (reply: Reply)
      modifies this
      ensures reply == DeletionRun(cluster, s, policies).reply
      ensures trace == old(trace) + DeletionRun(cluster, s, policies).calls
    {
      if |policies| != 0 {
        reply := DeletePoliciesAndRequeue(s, policies);
        return;
      }

      trace := trace + [TearDown(s)];
      var tornDown := cluster.tearDown(s);
      if tornDown.Fail? {
        return Reply(Empty, Some(DeletionNotReconciled(tornDown.error)));
      }

      var server := WithoutFinalizer(s);
      trace := trace + [UpdateServer(server)];
      var updated := cluster.updateServer(server);
      if updated.Fail? {
        if updated.error == Conflict {
          return Reply(Empty, None);
        }
        return Reply(Empty, Some(CannotUpdatePolicyServer(updated.error)));
      }
      reply := Reply(Empty, None);
    }

    /** deletePoliciesAndRequeue: delete every policy not already
        terminating, collect the failures other than NotFound, never stop early. */
    method DeletePoliciesAndRequeue(s: PolicyServer, policies: seq<Policy>) returns (reply: Reply)
      modifies this
      ensures trace == old(trace) + DeletesOf(Active(policies))
      ensures reply == SweepReply(s, DeleteErrors(cluster, policies))
    {
      var deleteErrors: seq<ApiError> := [];
      ghost var before := trace;
      var i := 0;
      while i < |policies|
        invariant 0 <= i <= |policies|
        invariant trace == before + DeletesOf(Active(policies[..i]))
        invariant deleteErrors == DeleteErrors(cluster, policies[..i])
      {
        var policy := policies[i];
        SweepStep(cluster, policies, i);
        if !policy.Terminating() {
          trace := trace + [DeletePolicy(policy)];
          var deleted := cluster.deletePolicy(policy);
          if Blocking(deleted) {
            deleteErrors := deleteErrors + [deleted.error];
          }
        }
        i := i + 1;
      }
      assert policies[..i] == policies;
      reply := SweepReply(s, deleteErrors);
    }
  }
}

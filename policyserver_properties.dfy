/** What the PolicyServer controller promises, stated over the specification
    functions that its reconciler's methods are proved against: the early
    exits, the convergence branch, the delete sweep and the ordering of
    teardown, finalizer removal and status writes in the call trace. */
module PolicyServerProperties {
  import opened Kube
  import opened PolicyServerController

  /** The delete sweep: every error it collects is a real failure, and it
      collects one exactly when some policy that was not already terminating
      failed to delete for a reason other than NotFound. */
  lemma {:induction false} DeleteErrorsExact(c: Cluster, policies: seq<Policy>)
    ensures forall e :: e in DeleteErrors(c, policies) ==> e != NotFound
    ensures DeleteErrors(c, policies) != [] <==>
      exists p :: p in policies && !p.Terminating() && Blocking(c.deletePolicy(p))
  {
    if policies != [] {
      var init, last := policies[..|policies| - 1], policies[|policies| - 1];
      assert policies == init + [last];
      DeleteErrorsExact(c, init);
      if exists p :: p in policies && !p.Terminating() && Blocking(c.deletePolicy(p)) {
        var p :| p in policies && !p.Terminating() && Blocking(c.deletePolicy(p));
        if p != last {
          assert p in init;
        }
      }
    }
  }

  /** One Delete call per listed entry: a policy is targeted as often as it is listed. */
  lemma {:induction false} DeletesOfCounts(policies: seq<Policy>, p: Policy)
    ensures multiset(DeletesOf(policies))[DeletePolicy(p)] == multiset(policies)[p]
  {
    if policies != [] {
      var init, last := policies[..|policies| - 1], policies[|policies| - 1];
      assert policies == init + [last];
      assert DeletesOf(policies) == DeletesOf(init) + [DeletePolicy(last)];
      DeletesOfCounts(init, p);
    }
  }

  /** With policies still bound, the deletion branch issues nothing but
      Delete calls, and which ones does not depend on how the deletes turn out. */
  lemma SweepIssuesOnlyDeletes(c: Cluster, s: PolicyServer, policies: seq<Policy>)
    requires policies != []
    ensures forall call :: call in DeletionRun(c, s, policies).calls ==> call.DeletePolicy?
    ensures forall c' :: DeletionRun(c', s, policies).calls == DeletionRun(c, s, policies).calls
  {
  }

  /** The sweep deletes each listed policy that is not already terminating
      once per listing, and never one that is terminating. */
  lemma SweepDeletesEachActivePolicyOnce(c: Cluster, s: PolicyServer, policies: seq<Policy>, p: Policy)
    requires policies != []
    ensures multiset(DeletionRun(c, s, policies).calls)[DeletePolicy(p)] ==
      if p.Terminating() then 0 else multiset(policies)[p]
  {
    DeletesOfCounts(Active(policies), p);
    ActiveCounts(policies, p);
  }

  /** Two active policies around one that is already terminating: exactly
      the two active ones are deleted, in list order. */
  lemma SweepSkipsTerminatingPolicy(c: Cluster, s: PolicyServer, a: Policy, t: Policy, b: Policy)
    requires !a.Terminating() && t.Terminating() && !b.Terminating()
    ensures DeletionRun(c, s, [a, t, b]).calls == [DeletePolicy(a), DeletePolicy(b)]
  {
    assert [a, t, b][..2] == [a, t];
    assert [a, t][..1] == [a];
    assert [a][..0] == [];
    assert Active([a]) == [a];
    assert Active([a, t]) == [a];
    assert Active([a, t, b]) == [a, b];
  }

  /** The delete sweep's verdict: an error exactly when a non-NotFound delete
      failure occurred, an immediate requeue otherwise. */
  lemma SweepVerdict(c: Cluster, s: PolicyServer, policies: seq<Policy>)
    requires policies != []
    ensures DeletionRun(c, s, policies).reply.err.Some? <==>
      exists p :: p in policies && !p.Terminating() && Blocking(c.deletePolicy(p))
    ensures DeletionRun(c, s, policies).reply.err.None? ==>
      DeletionRun(c, s, policies).reply == Reply(Result(true, 0), None)
  {
    DeleteErrorsExact(c, policies);
  }

  /** A missing server ends the attempt silently; any other read error is
      surfaced; nothing else is called in either case. */
  lemma ReadFailureEndsAttempt(c: Cluster, key: Key)
    requires c.getServer(key).Failed?
    ensures ReconcileRun(c, key).calls == [GetServer(key)]
    ensures ReconcileRun(c, key).reply ==
      if c.getServer(key).error == NotFound then Reply(Empty, None)
      else Reply(Empty, Some(CannotRetrievePolicyServer(c.getServer(key).error)))
  {
  }

  /** A failure to list the bound policies is surfaced before either branch
      runs: no delete, teardown, finalizer change or status write. */
  lemma ListFailureEndsAttempt(c: Cluster, key: Key, s: PolicyServer)
    requires c.getServer(key) == Found(s) && c.listPolicies(s).Failed?
    ensures ReconcileRun(c, key).calls == [GetServer(key), ListPolicies(s)]
    ensures ReconcileRun(c, key).reply == Reply(Empty, Some(CouldNotGetPolicies(c.listPolicies(s).error)))
  {
  }

  /** Outside deletion the status is written after convergence whatever its
      outcome; a failed write replaces the convergence reply, a successful
      one passes it through unchanged. */
  lemma StatusWrittenAfterConvergence(c: Cluster, key: Key, s: PolicyServer, policies: seq<Policy>)
    requires c.getServer(key) == Found(s) && c.listPolicies(s) == Found(policies)
    requires !s.meta.Terminating()
    ensures ReconcileRun(c, key).calls ==
      [GetServer(key), ListPolicies(s), Converge(s, policies), WriteStatus(s)]
    ensures c.writeStatus(s).Fail? ==>
      ReconcileRun(c, key).reply == Reply(Empty, Some(StatusUpdateFailed(c.writeStatus(s).error)))
    ensures c.writeStatus(s) == Ok ==>
      ReconcileRun(c, key).reply == ConvergeReply(c.converge(s, policies))
  {
  }

  /** A server that is not ready yet is retried after exactly five seconds,
      with no error, once its status is written. */
  lemma NotReadyRequeuesAfterFiveSeconds(c: Cluster, key: Key, s: PolicyServer, policies: seq<Policy>)
    requires c.getServer(key) == Found(s) && c.listPolicies(s) == Found(policies)
    requires !s.meta.Terminating()
    requires c.converge(s, policies) == Fail(NotReady) && c.writeStatus(s) == Ok
    ensures ReconcileRun(c, key).reply == Reply(Result(true, 5), None)
  {
  }

  /** The deletion branch never converges and never writes the status. */
  lemma DeletionNeverWritesStatus(c: Cluster, key: Key, s: PolicyServer)
    requires c.getServer(key) == Found(s) && s.meta.Terminating()
    ensures forall call :: call in ReconcileRun(c, key).calls ==> !call.WriteStatus? && !call.Converge?
  {
  }

  /** Teardown is never called while bound policies remain: it is issued
      only for a terminating server whose policy list came back empty. */
  lemma NoTeardownWhilePoliciesRemain(c: Cluster, key: Key, s: PolicyServer)
    requires TearDown(s) in ReconcileRun(c, key).calls
    ensures c.getServer(key) == Found(s) && s.meta.Terminating()
    ensures c.listPolicies(s) == Found([])
  {
  }

  /** The finalizer is removed only after teardown succeeded: the Update
      carrying the server without its finalizer is the last call of the
      attempt and comes right after a successful teardown of that server. */
  lemma FinalizerRemovedOnlyAfterTeardown(c: Cluster, key: Key, j: nat)
    requires j < |ReconcileRun(c, key).calls| && ReconcileRun(c, key).calls[j].UpdateServer?
    ensures j == |ReconcileRun(c, key).calls| - 1 && j > 0
    ensures ReconcileRun(c, key).calls[j - 1].TearDown?
    ensures c.tearDown(ReconcileRun(c, key).calls[j - 1].server) == Ok
    ensures ReconcileRun(c, key).calls[j].server == WithoutFinalizer(ReconcileRun(c, key).calls[j - 1].server)
    ensures KubewardenFinalizer !in ReconcileRun(c, key).calls[j].server.meta.finalizers
  {
  }

  /** A Conflict on the final Update means the server is already gone:
      the attempt ends without an error. */
  lemma ConflictOnFinalUpdateIsSuccess(c: Cluster, key: Key, s: PolicyServer)
    requires c.getServer(key) == Found(s) && s.meta.Terminating()
    requires c.listPolicies(s) == Found([]) && c.tearDown(s) == Ok
    requires c.updateServer(WithoutFinalizer(s)) == Fail(Conflict)
    ensures ReconcileRun(c, key).reply == Reply(Empty, None)
    ensures ReconcileRun(c, key).calls ==
      [GetServer(key), ListPolicies(s), TearDown(s), UpdateServer(WithoutFinalizer(s))]
  {
  }

  /** A failed teardown is surfaced and leaves the finalizer in place: no Update is issued. */
  lemma TeardownFailureKeepsFinalizer(c: Cluster, key: Key, s: PolicyServer)
    requires c.getServer(key) == Found(s) && s.meta.Terminating()
    requires c.listPolicies(s) == Found([]) && c.tearDown(s).Fail?
    ensures ReconcileRun(c, key).reply == Reply(Empty, Some(DeletionNotReconciled(c.tearDown(s).error)))
    ensures forall call :: call in ReconcileRun(c, key).calls ==> !call.UpdateServer?
  {
  }
}

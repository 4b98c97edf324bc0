/** The PolicyServer controller's field-index extractors and policy watches:
    both kinds of policy are indexed, and enqueued, under the name of the
    PolicyServer they are bound to. */
module PolicyServerIndex {
  import opened Kube

  /** The index extractor registered for policies of `kind`: the one index
      key is the policy's Spec.PolicyServer; an object of any other kind has
      no key. */
  function IndexPolicyServer(kind: PolicyKind, obj: Object): (keys: seq<string>)
    ensures |keys| <= 1
    ensures keys != [] <==> obj.PolicyObject? && obj.policy.kind == kind
    ensures forall k :: k in keys ==> k == obj.policy.policyServer
  {
    match obj
    case PolicyObject(policy) => if policy.kind == kind then [policy.policyServer] else []
    case _ => []
  }

  /** The watch on policies of `kind`: a change to such a policy enqueues
      its PolicyServer, by name, with the empty namespace. */
  function PolicyServerRequests(kind: PolicyKind, obj: Object): (reqs: seq<Key>)
    ensures |reqs| <= 1
    ensures reqs != [] <==> obj.PolicyObject? && obj.policy.kind == kind
    ensures forall r :: r in reqs ==> r == Key("", obj.policy.policyServer)
  {
    match obj
    case PolicyObject(policy) => if policy.kind == kind then [Key("", policy.policyServer)] else []
    case _ => []
  }

  /** The watch and the index agree: a policy enqueues exactly the server
      under whose name it is indexed, and that server is the one its
      reference names. */
  lemma WatchEnqueuesIndexedServer(kind: PolicyKind, obj: Object, name: string)
    ensures Key("", name) in PolicyServerRequests(kind, obj) <==> name in IndexPolicyServer(kind, obj)
    ensures name in IndexPolicyServer(kind, obj) <==>
      obj.PolicyObject? && obj.policy.kind == kind && obj.policy.policyServer == name
  {
  }

  /** Every policy of the watched kind, whatever else it holds, is indexed
      and enqueued under exactly one name. */
  lemma EveryPolicyHasOneServer(p: Policy)
    ensures IndexPolicyServer(p.kind, PolicyObject(p)) == [p.policyServer]
    ensures PolicyServerRequests(p.kind, PolicyObject(p)) == [Key("", p.policyServer)]
  {
  }
}

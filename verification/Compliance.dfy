/**
 Policies, their guarded updates, and the evaluation of a flow against them.
 */
module Compliance {
  import opened Wrappers
  import opened Naming

  datatype Confidentiality = Secret | Public

  datatype Deletion = NotDeleted | Pending | Deleted

  datatype Policy = Policy(confidentiality: Confidentiality, integrity: u32, deleted: Deletion, consent: bool)
  {
    predicate IsDeleted() {
      deleted != NotDeleted
    }
  }

  const DEFAULT_POLICY := Policy(Public, 0, NotDeleted, false)

  /** A resource without an entry has the default policy. */
  type Policies = map<Resource, Policy>

  function Lookup(policies: Policies, r: Resource): Policy {
    if r in policies then policies[r] else DEFAULT_POLICY
  }

  ghost predicate SameLookups(before: Policies, after: Policies) {
    forall r :: Lookup(before, r) == Lookup(after, r)
  }

  // ---------------------------------------------------------------- updates

  datatype Response = PolicyUpdated | PolicyNotUpdated

  datatype Update =
    | SetPolicy(resource: Resource, policy: Policy)
    | SetConfidentiality(resource: Resource, confidentiality: Confidentiality)
    | SetIntegrity(resource: Resource, integrity: u32)
    | SetDeleted(resource: Resource)
    | EnforceConsent(resource: Resource, consent: bool)

  /** The policy an update asks for, given the present one. */
  function Requested(update: Update, present: Policy): Policy {
    match update
    case SetPolicy(_, policy) => policy
    case SetConfidentiality(_, confidentiality) => present.(confidentiality := confidentiality)
    case SetIntegrity(_, integrity) => present.(integrity := integrity)
    case SetDeleted(_) => present.(deleted := Pending)
    case EnforceConsent(_, consent) => present.(consent := consent)
  }

  function Apply(policies: Policies, update: Update): Policies {
    var present := Lookup(policies, update.resource);
    if present.IsDeleted() then policies
    else policies[update.resource := Requested(update, present)]
  }

  /** On a resource that is not deleted, an update has the effect it is named for and no other. */
  lemma UpdateTakesEffect(policies: Policies, update: Update)
    requires Lookup(policies, update.resource).deleted == NotDeleted
    ensures var before, after := Lookup(policies, update.resource), Lookup(Apply(policies, update), update.resource);
            match update
            case SetPolicy(_, policy) => after == policy
            case SetConfidentiality(_, confidentiality) =>
              after == Policy(confidentiality, before.integrity, NotDeleted, before.consent)
            case SetIntegrity(_, integrity) =>
              after == Policy(before.confidentiality, integrity, NotDeleted, before.consent)
            case SetDeleted(_) => after == Policy(before.confidentiality, before.integrity, Pending, before.consent)
            case EnforceConsent(_, consent) =>
              after == Policy(before.confidentiality, before.integrity, NotDeleted, consent)
    ensures forall r :: r != update.resource ==> Lookup(Apply(policies, update), r) == Lookup(policies, r)
  {
  }

  function ApplyAll(policies: Policies, updates: seq<Update>): Policies
    decreases |updates|
  {
    if updates == [] then policies
    else ApplyAll(Apply(policies, updates[0]), updates[1..])
  }

  /** Updates take effect one after the other. */
  lemma {:induction false} ApplyInTurn(policies: Policies, updates: seq<Update>, last: Update)
    ensures ApplyAll(policies, []) == policies
    ensures ApplyAll(policies, updates + [last]) == Apply(ApplyAll(policies, updates), last)
    decreases |updates|
  {
    if updates == [] {
      assert [last][1..] == [];
    } else {
      assert (updates + [last])[1..] == updates[1..] + [last];
      ApplyInTurn(Apply(policies, updates[0]), updates[1..], last);
    }
  }

  /** Once a policy is deleted or pending deletion nothing changes it again. */
  lemma {:induction false} DeletionFreezes(policies: Policies, updates: seq<Update>, r: Resource)
    requires Lookup(policies, r).IsDeleted()
    ensures Lookup(ApplyAll(policies, updates), r) == Lookup(policies, r)
    decreases |updates|
  {
    if updates != [] {
      DeletionFreezes(Apply(policies, updates[0]), updates[1..], r);
    }
  }

  /** The updates of one resource among those of many. */
  function UpdatesOf(updates: seq<Update>, r: Resource): (mine: seq<Update>)
    ensures forall update :: update in mine <==> update in updates && update.resource == r
  {
    if updates == [] then []
    else (if updates[0].resource == r then [updates[0]] else []) + UpdatesOf(updates[1..], r)
  }

  /** What a resource's policy becomes depends on no other resource's updates. */
  lemma {:induction false} UpdatesAreIndependent(policies: Policies, other: Policies, updates: seq<Update>, r: Resource)
    requires Lookup(policies, r) == Lookup(other, r)
    ensures Lookup(ApplyAll(policies, updates), r) == Lookup(ApplyAll(other, UpdatesOf(updates, r)), r)
    decreases |updates|
  {
    if updates != [] {
      var next := Apply(policies, updates[0]);
      if updates[0].resource == r {
        var mine := UpdatesOf(updates, r);
        assert mine[1..] == UpdatesOf(updates[1..], r);
        UpdatesAreIndependent(next, Apply(other, updates[0]), updates[1..], r);
      } else {
        assert UpdatesOf(updates, r) == UpdatesOf(updates[1..], r);
        UpdatesAreIndependent(next, other, updates[1..], r);
      }
    }
  }

  // ---------------------------------------------------------------- evaluation

  /** Deletion, integrity and confidentiality, for one source. */
  predicate RulesPass(source: Policy, destination: Policy) {
    && !source.IsDeleted()
    && !destination.IsDeleted()
    && source.integrity >= destination.integrity
    && !(source.confidentiality == Secret && destination.confidentiality == Public)
  }

  /** Between resources that are not deleted, data may always stay at its level. */
  lemma SameLevelPasses(p: Policy, q: Policy)
    requires p.deleted == NotDeleted && q.deleted == NotDeleted
    requires p.confidentiality == q.confidentiality && p.integrity == q.integrity
    ensures RulesPass(p, q)
  {
  }

  /** A more trusted or less secret source, or a less trusted or more secret destination, never turns a grant into
      a refusal. */
  lemma RulesAreMonotone(p: Policy, q: Policy, p': Policy, q': Policy)
    requires RulesPass(p, q) && p'.deleted == NotDeleted && q'.deleted == NotDeleted
    requires p'.integrity >= p.integrity && (p'.confidentiality == p.confidentiality || p'.confidentiality == Public)
    requires q'.integrity <= q.integrity && (q'.confidentiality == q.confidentiality || q'.confidentiality == Secret)
    ensures RulesPass(p', q')
  {
  }

  /** Staying at a level and these four changes are all there is to a grant. */
  lemma GrantsAreGenerated(p: Policy, q: Policy)
    ensures RulesPass(p, q) <==>
            && p.deleted == NotDeleted && q.deleted == NotDeleted
            && exists level: Policy ::
                 && p.integrity >= level.integrity >= q.integrity
                 && (p.confidentiality == level.confidentiality || p.confidentiality == Public)
                 && (q.confidentiality == level.confidentiality || q.confidentiality == Secret)
  {
    if RulesPass(p, q) {
      assert p.integrity >= p.integrity >= q.integrity;
    }
  }

  /** The scenarios given with the evaluation in the source. */
  lemma DocumentedScenarios()
    ensures var policy := (c, i) => Policy(c, i, NotDeleted, false);
            && RulesPass(policy(Public, 5), policy(Public, 3))
            && RulesPass(policy(Secret, 5), policy(Secret, 3))
            && RulesPass(policy(Public, 5), policy(Secret, 3))
            && !RulesPass(policy(Public, 3), policy(Public, 5))
            && !RulesPass(policy(Secret, 5), policy(Public, 3))
    ensures forall p: Policy, q: Policy :: p.deleted != NotDeleted || q.deleted != NotDeleted ==> !RulesPass(p, q)
  {
  }

  /** A source passes if it meets the rules and its owner consents wherever consent is enforced.
      Streams have no policy of their own and always pass. */
  predicate SourcePasses(policies: Policies, source: Resource, destination: Policy, consenting: set<Resource>) {
    source.IsStream()
    || (&& RulesPass(Lookup(policies, source), destination)
        && (Lookup(policies, source).consent ==> source in consenting))
  }

  /** The policy evaluated against: a node answers for its own resources, whatever it was sent. */
  function DestinationPolicy(policies: Policies, node: NodeId, destination: LocalizedResource, sent: Option<Policy>)
    : Option<Policy>
  {
    if destination.nodeId == node then Some(Lookup(policies, destination.resource)) else sent
  }

  predicate EvalGrants(policies: Policies, node: NodeId, sources: set<Resource>, destination: LocalizedResource,
                       sent: Option<Policy>, consenting: set<Resource>)
  {
    var policy := DestinationPolicy(policies, node, destination, sent);
    && policy.Some?
    && forall s :: s in sources ==> SourcePasses(policies, s, policy.value, consenting)
  }

  /** What is fixed when the policies are read, before any owner answers. */
  predicate RulesGrant(policies: Policies, node: NodeId, sources: set<Resource>, destination: LocalizedResource,
                       sent: Option<Policy>)
  {
    var policy := DestinationPolicy(policies, node, destination, sent);
    && policy.Some?
    && forall s :: s in sources && !s.IsStream() ==> RulesPass(Lookup(policies, s), policy.value)
  }

  /** The sources whose owners are asked. */
  function Asked(policies: Policies, sources: set<Resource>): set<Resource> {
    set s | s in sources && !s.IsStream() && Lookup(policies, s).consent
  }

  /** An evaluation is the rules when the policies are read, and then the consents of those who were asked. */
  lemma EvalIsRulesThenConsents(policies: Policies, node: NodeId, sources: set<Resource>,
                                destination: LocalizedResource, sent: Option<Policy>, consenting: set<Resource>)
    ensures EvalGrants(policies, node, sources, destination, sent, consenting)
       <==> RulesGrant(policies, node, sources, destination, sent) && Asked(policies, sources) <= consenting
  {
    if EvalGrants(policies, node, sources, destination, sent, consenting) {
      forall s | s in sources && !s.IsStream()
        ensures RulesPass(Lookup(policies, s), DestinationPolicy(policies, node, destination, sent).value)
        ensures Lookup(policies, s).consent ==> s in consenting
      {
        assert SourcePasses(policies, s, DestinationPolicy(policies, node, destination, sent).value, consenting);
      }
    }
  }

  /** Evaluating two sets of sources together or apart is the same. */
  lemma EvalDistributes(policies: Policies, node: NodeId, a: set<Resource>, b: set<Resource>,
                        destination: LocalizedResource, sent: Option<Policy>, consenting: set<Resource>)
    ensures EvalGrants(policies, node, a + b, destination, sent, consenting)
       <==> && EvalGrants(policies, node, a, destination, sent, consenting)
            && EvalGrants(policies, node, b, destination, sent, consenting)
  {
    if EvalGrants(policies, node, a, destination, sent, consenting)
       && EvalGrants(policies, node, b, destination, sent, consenting) {
      forall s | s in a + b
        ensures SourcePasses(policies, s, DestinationPolicy(policies, node, destination, sent).value, consenting)
      {
      }
    }
  }

  /** Storing defaults changes no verdict. */
  lemma VerdictNeedsLookupsOnly(before: Policies, after: Policies, node: NodeId, sources: set<Resource>,
                                destination: LocalizedResource, sent: Option<Policy>, consenting: set<Resource>)
    requires SameLookups(before, after)
    ensures EvalGrants(after, node, sources, destination, sent, consenting)
         == EvalGrants(before, node, sources, destination, sent, consenting)
  {
    forall s, policy
      ensures SourcePasses(after, s, policy, consenting) == SourcePasses(before, s, policy, consenting)
    {
    }
  }

  /** A deleted destination is refused exactly when some source is not a stream: with no such source
      the deletion rule is never looked at and the flow is granted. */
  lemma DeletedDestinationIsRefusedExactly(policies: Policies, node: NodeId, sources: set<Resource>,
                                           r: Resource, consenting: set<Resource>)
    requires Lookup(policies, r).IsDeleted()
    ensures !EvalGrants(policies, node, sources, LocalizedResource(node, r), None, consenting)
       <==> exists s :: s in sources && !s.IsStream()
  {
    if s :| s in sources && !s.IsStream() {
      assert !SourcePasses(policies, s, Lookup(policies, r), consenting);
    }
  }

  /** So may a deleted process read a stream through which nothing was sent yet. */
  lemma DeletedDestinationIsGranted(pid: int, startTime: nat, exePath: string, node: NodeId)
    ensures var reader := Process(pid, startTime, exePath);
            var policies := map[reader := DEFAULT_POLICY.(deleted := Deleted)];
            EvalGrants(policies, node, {}, LocalizedResource(node, reader), None, {})
  {
  }

  datatype Error = DirectPolicyViolation | DestinationPolicyNotFound | InternalTrace2eError

  class ComplianceService {
    const nodeId: NodeId
    var policies: Policies

    constructor (nodeId: NodeId)
      ensures this.nodeId == nodeId && policies == map[]
    {
      this.nodeId := nodeId;
      policies := map[];
    }

    /** Looks a policy up, storing the default for a resource seen for the first time. */
    method GetPolicy(r: Resource) returns (policy: Policy)
      modifies this
      ensures policy == Lookup(old(policies), r)
      ensures policy == if r in old(policies) then old(policies)[r] else Policy(Public, 0, NotDeleted, false)
      ensures policies == old(policies)[r := policy]
      ensures SameLookups(old(policies), policies)
    {
      if r !in policies {
        policies := policies[r := DEFAULT_POLICY];
      }
      policy := policies[r];
    }

    method GetPolicies(resources: set<Resource>) returns (found: map<Resource, Policy>)
      modifies this
      ensures found == map r | r in resources && !r.IsStream() :: Lookup(old(policies), r)
      ensures SameLookups(old(policies), policies)
    {
      found := map[];
      var rest := resources;
      while rest != {}
        invariant rest <= resources
        invariant found == map r | r in resources - rest && !r.IsStream() :: Lookup(old(policies), r)
        invariant SameLookups(old(policies), policies)
        decreases |rest|
      {
        var r :| r in rest;
        rest := rest - {r};
        if !r.IsStream() {
          var policy := GetPolicy(r);
          found := found[r := policy];
        }
      }
    }

    method Set(update: Update) returns (response: Response)
      modifies this
      ensures SameLookups(policies, Apply(old(policies), update))
      ensures response.PolicyNotUpdated? <==> Lookup(old(policies), update.resource).deleted != NotDeleted
      ensures forall r :: r != update.resource || response.PolicyNotUpdated? ==>
                Lookup(policies, r) == Lookup(old(policies), r)
      ensures response.PolicyUpdated? ==>
                var before, after := Lookup(old(policies), update.resource), Lookup(policies, update.resource);
                && (update.SetPolicy? ==> after == update.policy)
                && (update.SetConfidentiality? ==>
                      after == Policy(update.confidentiality, before.integrity, NotDeleted, before.consent))
                && (update.SetIntegrity? ==>
                      after == Policy(before.confidentiality, update.integrity, NotDeleted, before.consent))
                && (update.SetDeleted? ==>
                      after == Policy(before.confidentiality, before.integrity, Pending, before.consent))
                && (update.EnforceConsent? ==>
                      after == Policy(before.confidentiality, before.integrity, NotDeleted, update.consent))
    {
      match update
      case SetPolicy(resource, policy) =>
        if resource in policies && policies[resource].IsDeleted() {
          return PolicyNotUpdated;
        } else {
          policies := policies[resource := policy];
          return PolicyUpdated;
        }
      case _ =>
        var present := if update.resource in policies then policies[update.resource] else DEFAULT_POLICY;
        if present.IsDeleted() {
          return PolicyNotUpdated;
        } else {
          policies := policies[update.resource := Requested(update, present)];
          return PolicyUpdated;
        }
    }

    /** The loop over the sources: the verdict on the three rules, and whom to ask for consent. */
    method CheckRules(sourcePolicies: map<Resource, Policy>, destinationPolicy: Policy)
      returns (r: Result<(), Error>, tasks: set<Resource>)
      ensures r.Ok? <==> forall s :: s in sourcePolicies ==> RulesPass(sourcePolicies[s], destinationPolicy)
      ensures r.Ok? <==> forall s :: s in sourcePolicies ==>
                var p, q := sourcePolicies[s], destinationPolicy;
                && p.deleted == NotDeleted && q.deleted == NotDeleted
                && p.integrity >= q.integrity
                && (q.confidentiality == Secret || p.confidentiality == Public)
      ensures r.Err? ==> r.error == DirectPolicyViolation
      ensures tasks == set s | s in sourcePolicies && sourcePolicies[s].consent
    {
      r, tasks := Ok(()), {};
      var rest := sourcePolicies.Keys;
      while rest != {}
        invariant rest <= sourcePolicies.Keys
        invariant tasks == set s | s in sourcePolicies.Keys - rest && sourcePolicies[s].consent
        invariant r.Ok? <==> forall s :: s in sourcePolicies && s !in rest ==>
                    RulesPass(sourcePolicies[s], destinationPolicy)
        invariant r.Err? ==> r.error == DirectPolicyViolation
        decreases |rest|
      {
        var source :| source in rest;
        rest := rest - {source};
        var sourcePolicy := sourcePolicies[source];
        if sourcePolicy.consent {
          tasks := tasks + {source};
        }
        if sourcePolicy.IsDeleted() || destinationPolicy.IsDeleted() {
          r := Err(DirectPolicyViolation);
        }
        if sourcePolicy.integrity < destinationPolicy.integrity {
          r := Err(DirectPolicyViolation);
        }
        if sourcePolicy.confidentiality == Secret && destinationPolicy.confidentiality == Public {
          r := Err(DirectPolicyViolation);
        }
      }
      RulesSpelledOut(sourcePolicies, destinationPolicy);
    }

    /** The consent requests, in whatever order they come back; the first bad one decides. */
    method AwaitConsents(asked: set<Resource>, answers: map<Resource, bool>) returns (r: Result<(), Error>)
      ensures r.Ok? <==> asked <= Consenting(answers)
      ensures r == Err(InternalTrace2eError) ==> exists s :: s in asked && s !in answers
      ensures r == Err(DirectPolicyViolation) ==> exists s :: s in asked && s in answers && !answers[s]
      ensures r != Err(DestinationPolicyNotFound)
    {
      var tasks := asked;
      while tasks != {}
        invariant tasks <= asked
        invariant asked - tasks <= Consenting(answers)
        decreases |tasks|
      {
        var source :| source in tasks;
        tasks := tasks - {source};
        if source !in answers {
          return Err(InternalTrace2eError);
        } else if !answers[source] {
          return Err(DirectPolicyViolation);
        }
      }
      return Ok(());
    }

    /** Grants exactly when every source passes, in whatever order the sources are visited and the
        consent requests come back. `answers` holds the consent decisions that arrive; a source
        missing from it is one whose request failed. */
    method EvalCompliance(sources: set<Resource>, destination: LocalizedResource, sent: Option<Policy>,
                          answers: map<Resource, bool>)
      returns (r: Result<(), Error>)
      modifies this
      ensures SameLookups(old(policies), policies)
      ensures r.Ok? <==> EvalGrants(old(policies), nodeId, sources, destination, sent, Consenting(answers))
      ensures r.Ok? <==>
                && (destination.nodeId == nodeId || sent.Some?)
                && forall s :: s in sources && !s.IsStream() ==>
                     var p := Lookup(old(policies), s);
                     var q := if destination.nodeId == nodeId then Lookup(old(policies), destination.resource)
                              else sent.value;
                     && p.deleted == NotDeleted && q.deleted == NotDeleted
                     && p.integrity >= q.integrity
                     && (q.confidentiality == Secret || p.confidentiality == Public)
                     && (p.consent ==> s in answers && answers[s])
      ensures r == Err(DestinationPolicyNotFound) <==> destination.nodeId != nodeId && sent.None?
      ensures r == Err(InternalTrace2eError) ==>
                exists s :: s in sources && Lookup(old(policies), s).consent && s !in answers
    {
      var destinationPolicy: Policy;
      if destination.nodeId == nodeId {
        destinationPolicy := GetPolicy(destination.resource);
      } else if sent.Some? {
        destinationPolicy := sent.value;
      } else {
        return Err(DestinationPolicyNotFound);
      }
      var sourcePolicies := GetPolicies(sources);
      var tasks;
      r, tasks := CheckRules(sourcePolicies, destinationPolicy);
      var consents := AwaitConsents(tasks, answers);
      EvalIsRulesAndConsents(old(policies), sources, sourcePolicies, destinationPolicy, Consenting(answers));
      GrantsSpelledOut(old(policies), nodeId, sources, destination, sent, answers);
      if consents.Err? {
        r := consents;
      }
    }
  }

  function Consenting(answers: map<Resource, bool>): set<Resource> {
    set s | s in answers && answers[s]
  }

  lemma RulesSpelledOut(sourcePolicies: map<Resource, Policy>, q: Policy)
    ensures (forall s :: s in sourcePolicies ==> RulesPass(sourcePolicies[s], q)) <==>
            forall s :: s in sourcePolicies ==>
              var p := sourcePolicies[s];
              && p.deleted == NotDeleted && q.deleted == NotDeleted
              && p.integrity >= q.integrity
              && (q.confidentiality == Secret || p.confidentiality == Public)
  {
  }

  /** What an evaluation comes to, policy by policy. */
  lemma GrantsSpelledOut(policies: Policies, node: NodeId, sources: set<Resource>, destination: LocalizedResource,
                         sent: Option<Policy>, answers: map<Resource, bool>)
    ensures EvalGrants(policies, node, sources, destination, sent, Consenting(answers)) <==>
            && (destination.nodeId == node || sent.Some?)
            && forall s :: s in sources && !s.IsStream() ==>
                 var p := Lookup(policies, s);
                 var q := if destination.nodeId == node then Lookup(policies, destination.resource) else sent.value;
                 && p.deleted == NotDeleted && q.deleted == NotDeleted
                 && p.integrity >= q.integrity
                 && (q.confidentiality == Secret || p.confidentiality == Public)
                 && (p.consent ==> s in answers && answers[s])
  {
    if destination.nodeId == node || sent.Some? {
      var q := DestinationPolicy(policies, node, destination, sent).value;
      forall s | s in sources && !s.IsStream()
        ensures SourcePasses(policies, s, q, Consenting(answers)) <==>
                var p := Lookup(policies, s);
                && p.deleted == NotDeleted && q.deleted == NotDeleted
                && p.integrity >= q.integrity
                && (q.confidentiality == Secret || p.confidentiality == Public)
                && (p.consent ==> s in answers && answers[s])
      {
      }
    }
  }

  lemma EvalIsRulesAndConsents(policies: Policies, sources: set<Resource>, sourcePolicies: map<Resource, Policy>,
                               destination: Policy, consenting: set<Resource>)
    requires sourcePolicies == map s | s in sources && !s.IsStream() :: Lookup(policies, s)
    ensures (forall s :: s in sources ==> SourcePasses(policies, s, destination, consenting))
       <==> && (forall s :: s in sourcePolicies ==> RulesPass(sourcePolicies[s], destination))
            && (set s | s in sourcePolicies && sourcePolicies[s].consent) <= consenting
  {
    var asked := set s | s in sourcePolicies && sourcePolicies[s].consent;
    if forall s :: s in sources ==> SourcePasses(policies, s, destination, consenting) {
      forall s | s in sourcePolicies
        ensures RulesPass(sourcePolicies[s], destination) && (s in asked ==> s in consenting)
      {
        assert SourcePasses(policies, s, destination, consenting);
      }
    } else {
      var s :| s in sources && !SourcePasses(policies, s, destination, consenting);
      assert s in sourcePolicies;
      assert !RulesPass(sourcePolicies[s], destination) || s in asked - consenting;
    }
  }
}

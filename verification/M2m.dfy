/**
 What one node does for the others, and the loopback transport that routes
 requests between the nodes registered with it.

 Each method is one call without interleaving; `Protocol` is about the
 interleavings.
 */
module M2m {
  import opened Wrappers
  import opened Naming
  import Sequencer
  import Provenance
  import Compliance

  datatype Error =
    | NotLocalResource
    | Unavailable(error: Sequencer.Error)
    | Denied(reason: Compliance.Error)
    | TransportFailedToContactRemote(node: NodeId)
    | InternalTrace2eError
    | UndeclaredResource(pid: int, descriptor: int)
    | NotFoundFlow(id: nat)

  type Answers = map<NodeId, map<Resource, bool>>

  /** The sources on node `n` whose owners consent. */
  function ConsentingAt(answers: Answers, n: NodeId): set<Resource> {
    if n in answers then Compliance.Consenting(answers[n]) else {}
  }

  class M2mApiService {
    const sequencer: Sequencer.SequencerService
    const provenance: Provenance.ProvenanceService
    const compliance: Compliance.ComplianceService

    constructor (sequencer: Sequencer.SequencerService, provenance: Provenance.ProvenanceService,
                 compliance: Compliance.ComplianceService)
      ensures this.sequencer == sequencer && this.provenance == provenance && this.compliance == compliance
    {
      this.sequencer, this.provenance, this.compliance := sequencer, provenance, compliance;
    }

    /** Reserves a local destination for a remote source and answers with its policy. */
    method GetDestinationPolicy(destination: LocalizedResource) returns (r: Result<Compliance.Policy, Error>)
      modifies sequencer, compliance
      ensures Compliance.SameLookups(old(compliance.policies), compliance.policies)
      ensures destination.nodeId != provenance.nodeId ==>
                r == Err(NotLocalResource) && sequencer.flows == old(sequencer.flows)
      ensures destination.nodeId == provenance.nodeId ==>
                && sequencer.flows
                   == Sequencer.Attempt(old(sequencer.flows), Sequencer.ReserveFlow(Null, destination.resource))
                && sequencer.flows == (if r.Ok? then old(sequencer.flows)[destination.resource := Null]
                                       else old(sequencer.flows))
                && (r.Ok? <==> Sequencer.MayReserve(old(sequencer.flows), Null, destination.resource))
                && (r.Ok? ==> r.value == Compliance.Lookup(compliance.policies, destination.resource))
    {
      if destination.nodeId != provenance.nodeId {
        return Err(NotLocalResource);
      }
      var reserved := sequencer.MakeFlow(Null, destination.resource);
      if reserved.Err? {
        return Err(Unavailable(reserved.error));
      }
      var policy := compliance.GetPolicy(destination.resource);
      return Ok(policy);
    }

    /** Evaluates the local ones among the sources. */
    method CheckSourceCompliance(sources: Provenance.References, destination: LocalizedResource,
                                 policy: Compliance.Policy, answers: map<Resource, bool>)
      returns (r: Result<(), Error>)
      modifies compliance
      ensures Compliance.SameLookups(old(compliance.policies), compliance.policies)
      ensures r.Ok? <==> Compliance.EvalGrants(old(compliance.policies), compliance.nodeId,
                                               Provenance.RefsAt(sources, provenance.nodeId), destination, Some(policy),
                                               Compliance.Consenting(answers))
    {
      var verdict := compliance.EvalCompliance(Provenance.RefsAt(sources, provenance.nodeId), destination, Some(policy),
                                               answers);
      if verdict.Err? {
        return Err(Denied(verdict.error));
      }
      return Ok(());
    }

    /** Records references at a local destination and releases it. */
    method UpdateProvenance(sourceProv: Provenance.References, destination: LocalizedResource)
      returns (r: Result<(), Error>)
      modifies sequencer, provenance
      ensures destination.nodeId != provenance.nodeId ==>
                && r == Err(NotLocalResource) && sequencer.flows == old(sequencer.flows)
                && provenance.provenance == old(provenance.provenance)
      ensures destination.nodeId == provenance.nodeId ==>
                && r.Ok?
                && provenance.provenance
                   == Provenance.UpdateRaw(provenance.nodeId, old(provenance.provenance), sourceProv,
                                           destination.resource)
                && sequencer.flows == old(sequencer.flows) - {destination.resource}
    {
      if destination.nodeId != provenance.nodeId {
        return Err(NotLocalResource);
      }
      var _ := provenance.UpdateProvenanceRaw(sourceProv, destination.resource);
      var _ := sequencer.DropFlow(destination.resource);
      return Ok(());
    }

    /** Marks a local resource as deleted; a second time this is an error. */
    method BroadcastDeletion(resource: LocalizedResource) returns (r: Result<(), Error>)
      modifies compliance
      ensures resource.nodeId != provenance.nodeId ==> r.Ok? && compliance.policies == old(compliance.policies)
      ensures resource.nodeId == provenance.nodeId ==>
                && Compliance.SameLookups(compliance.policies,
                     Compliance.Apply(old(compliance.policies), Compliance.SetDeleted(resource.resource)))
                && (r.Ok? <==> !Compliance.Lookup(old(compliance.policies), resource.resource).IsDeleted())
    {
      if resource.nodeId != provenance.nodeId {
        return Ok(());
      }
      var response := compliance.Set(Compliance.SetDeleted(resource.resource));
      if response.PolicyNotUpdated? {
        return Err(InternalTrace2eError);
      }
      return Ok(());
    }
  }

  /** The nodes that own some of the references. */
  function NodesOf(refs: Provenance.References): set<NodeId> {
    set x | x in refs :: x.nodeId
  }

  type PolicyTables = map<NodeId, Compliance.Policies>

  ghost predicate SameTables(before: PolicyTables, after: PolicyTables) {
    before.Keys == after.Keys && forall n :: n in before ==> Compliance.SameLookups(before[n], after[n])
  }

  /** Node `n` is there and lets its references pass. */
  ghost predicate NodeGrants(tables: PolicyTables, n: NodeId, refs: Provenance.References,
                             destination: LocalizedResource, policy: Option<Compliance.Policy>, answers: Answers)
  {
    && n in tables
    && Compliance.EvalGrants(tables[n], n, Provenance.RefsAt(refs, n), destination, policy, ConsentingAt(answers, n))
  }

  ghost predicate AllGrant(tables: PolicyTables, nodes: set<NodeId>, refs: Provenance.References,
                           destination: LocalizedResource, policy: Option<Compliance.Policy>, answers: Answers)
  {
    forall n :: n in nodes ==> NodeGrants(tables, n, refs, destination, policy, answers)
  }

  lemma AllGrantOneMore(tables: PolicyTables, nodes: set<NodeId>, n: NodeId, refs: Provenance.References,
                        destination: LocalizedResource, policy: Option<Compliance.Policy>, answers: Answers)
    ensures AllGrant(tables, nodes + {n}, refs, destination, policy, answers)
       <==> && AllGrant(tables, nodes, refs, destination, policy, answers)
            && NodeGrants(tables, n, refs, destination, policy, answers)
  {
  }

  /** A node's answer depends on what it looks up and on its own references only. */
  lemma NodeAnswersForItself(before: PolicyTables, after: PolicyTables, n: NodeId,
                             refs: Provenance.References, mine: Provenance.References,
                             destination: LocalizedResource, policy: Option<Compliance.Policy>, answers: Answers)
    requires SameTables(before, after)
    requires mine == set x | x in refs && x.nodeId == n
    ensures NodeGrants(after, n, mine, destination, policy, answers)
         == NodeGrants(before, n, refs, destination, policy, answers)
  {
    assert Provenance.RefsAt(mine, n) == Provenance.RefsAt(refs, n);
    if n in before {
      Compliance.VerdictNeedsLookupsOnly(before[n], after[n], n, Provenance.RefsAt(refs, n), destination, policy,
                                         ConsentingAt(answers, n));
    }
  }

  type StoreTables = map<NodeId, Provenance.Store>

  type FlowTables = map<NodeId, Sequencer.Flows>

  ghost predicate PeerAvailable(flows: FlowTables, target: LocalizedResource) {
    target.nodeId in flows && Sequencer.MayReserve(flows[target.nodeId], Null, target.resource)
  }

  /** The peer's end of a stream reserved for a remote source, if it can be. */
  ghost function HoldPeer(flows: FlowTables, target: LocalizedResource): FlowTables {
    if PeerAvailable(flows, target) then
      flows[target.nodeId := flows[target.nodeId][target.resource := Null]]
    else flows
  }

  class M2mLoopback {
    /** The registry, complete before the first request. */
    const middlewares: map<NodeId, M2mApiService>

    /** The tables of all nodes, by kind. */
    ghost const sequencers: set<object>
    ghost const provenances: set<object>
    ghost const compliances: set<object>

    /** Every node is registered under its own name and shares no table with another. */
    ghost predicate Valid() {
      && (forall n :: n in middlewares ==>
            && middlewares[n].provenance.nodeId == n && middlewares[n].compliance.nodeId == n
            && middlewares[n].sequencer in sequencers
            && middlewares[n].provenance in provenances
            && middlewares[n].compliance in compliances)
      && (forall n :: n in middlewares ==>
            && middlewares[n].sequencer !in provenances && middlewares[n].sequencer !in compliances
            && middlewares[n].provenance !in sequencers && middlewares[n].provenance !in compliances
            && middlewares[n].compliance !in sequencers && middlewares[n].compliance !in provenances)
      && (forall n, m :: n in middlewares && m in middlewares && n != m ==>
            && middlewares[n].sequencer != middlewares[m].sequencer
            && middlewares[n].provenance != middlewares[m].provenance
            && middlewares[n].compliance != middlewares[m].compliance)
    }

    ghost function Policies(): PolicyTables
      requires Valid()
      reads compliances
    {
      map n | n in middlewares :: middlewares[n].compliance.policies
    }

    ghost function Flows(): FlowTables
      requires Valid()
      reads sequencers
    {
      map n | n in middlewares :: middlewares[n].sequencer.flows
    }

    ghost function Stores(): StoreTables
      requires Valid()
      reads provenances
    {
      map n | n in middlewares :: middlewares[n].provenance.provenance
    }

    constructor (middlewares: map<NodeId, M2mApiService>)
      requires forall n :: n in middlewares ==>
                 middlewares[n].provenance.nodeId == n && middlewares[n].compliance.nodeId == n
      requires forall n, m :: n in middlewares && m in middlewares && n != m ==>
                 && middlewares[n].sequencer != middlewares[m].sequencer
                 && middlewares[n].provenance != middlewares[m].provenance
                 && middlewares[n].compliance != middlewares[m].compliance
      ensures this.middlewares == middlewares && Valid()
    {
      this.middlewares := middlewares;
      sequencers := set n | n in middlewares :: middlewares[n].sequencer;
      provenances := set n | n in middlewares :: middlewares[n].provenance;
      compliances := set n | n in middlewares :: middlewares[n].compliance;
    }

    /** Routed to the node of the destination. */
    method GetDestinationPolicy(destination: LocalizedResource) returns (r: Result<Compliance.Policy, Error>)
      requires Valid()
      modifies sequencers, compliances
      ensures SameTables(old(Policies()), Policies())
      ensures Flows() == HoldPeer(old(Flows()), destination)
      ensures r.Ok? <==> PeerAvailable(old(Flows()), destination)
      ensures r.Ok? ==> r.value == Compliance.Lookup(old(Policies())[destination.nodeId], destination.resource)
    {
      if destination.nodeId !in middlewares {
        return Err(TransportFailedToContactRemote(destination.nodeId));
      }
      var middleware := middlewares[destination.nodeId];
      ghost var n := destination.nodeId;
      r := middleware.GetDestinationPolicy(destination);
      assert Flows() == old(Flows())[n := middleware.sequencer.flows];
      assert Policies() == old(Policies())[n := middleware.compliance.policies];
    }

    /** Routed to the node of the destination. */
    method UpdateProvenance(sourceProv: Provenance.References, destination: LocalizedResource)
      returns (r: Result<(), Error>)
      requires Valid()
      modifies sequencers, provenances
      ensures r.Ok? <==> destination.nodeId in middlewares
      ensures r.Err? ==> Flows() == old(Flows()) && Stores() == old(Stores())
      ensures r.Ok? ==>
                var n := destination.nodeId;
                && Flows() == old(Flows())[n := old(Flows())[n] - {destination.resource}]
                && Stores() == old(Stores())[n :=
                     Provenance.UpdateRaw(n, old(Stores())[n], sourceProv, destination.resource)]
    {
      if destination.nodeId !in middlewares {
        return Err(TransportFailedToContactRemote(destination.nodeId));
      }
      var middleware := middlewares[destination.nodeId];
      r := middleware.UpdateProvenance(sourceProv, destination);
    }

    /** Told to every node, acted on by the owner only; an error if it was deleted before. */
    method BroadcastDeletion(resource: LocalizedResource) returns (r: Result<(), Error>)
      requires Valid()
      modifies compliances
      ensures Policies().Keys == old(Policies()).Keys
      ensures forall n :: n in middlewares ==> Compliance.SameLookups(Policies()[n],
                if n == resource.nodeId
                then Compliance.Apply(old(Policies())[n], Compliance.SetDeleted(resource.resource))
                else old(Policies())[n])
      ensures r.Err? <==> resource.nodeId in middlewares
                          && Compliance.Lookup(old(Policies())[resource.nodeId], resource.resource).IsDeleted()
    {
      r := Ok(());
      var rest := middlewares.Keys;
      while rest != {}
        invariant rest <= middlewares.Keys
        invariant Policies().Keys == old(Policies()).Keys
        invariant forall n :: n in rest || (n in middlewares && n != resource.nodeId) ==>
                    Policies()[n] == old(Policies())[n]
        invariant resource.nodeId in middlewares && resource.nodeId !in rest ==>
                    Compliance.SameLookups(Policies()[resource.nodeId],
                      Compliance.Apply(old(Policies())[resource.nodeId], Compliance.SetDeleted(resource.resource)))
        invariant r.Err? <==> resource.nodeId in middlewares && resource.nodeId !in rest
                              && Compliance.Lookup(old(Policies())[resource.nodeId], resource.resource).IsDeleted()
        decreases |rest|
      {
        var n :| n in rest;
        rest := rest - {n};
        var middleware := middlewares[n];
        var result := middleware.BroadcastDeletion(resource);
        if result.Err? {
          r := result;
        }
      }
    }

    /** Sorts the sources by the node that owns them. */
    method Partition(sources: Provenance.References) returns (partitioned: map<NodeId, Provenance.References>)
      ensures partitioned.Keys == NodesOf(sources)
      ensures forall n :: n in partitioned ==> partitioned[n] == set x | x in sources && x.nodeId == n
    {
      partitioned := map[];
      var rest := sources;
      while rest != {}
        invariant rest <= sources
        invariant partitioned.Keys == NodesOf(sources - rest)
        invariant forall n :: n in partitioned ==> partitioned[n] == set x | x in sources - rest && x.nodeId == n
        decreases |rest|
      {
        var source :| source in rest;
        rest := rest - {source};
        var n := source.nodeId;
        partitioned := partitioned[n := (if n in partitioned then partitioned[n] else {}) + {source}];
      }
      assert sources - {} == sources;
    }

    /** Asks every node that owns some of the sources; all must be there and agree. */
    method CheckSourceCompliance(sources: Provenance.References, destination: LocalizedResource,
                                 policy: Compliance.Policy, answers: Answers)
      returns (r: Result<(), Error>)
      requires Valid()
      modifies compliances
      ensures SameTables(old(Policies()), Policies())
      ensures r.Ok? <==> AllGrant(old(Policies()), NodesOf(sources), sources, destination, Some(policy), answers)
    {
      var partitioned := Partition(sources);
      var rest := partitioned.Keys;
      r := Ok(());
      ghost var before, asked := Policies(), {};
      while rest != {}
        invariant rest <= partitioned.Keys && asked == partitioned.Keys - rest
        invariant SameTables(before, Policies())
        invariant r.Ok? <==> AllGrant(before, asked, sources, destination, Some(policy), answers)
        decreases |rest|
      {
        var n :| n in rest;
        rest := rest - {n};
        AllGrantOneMore(before, asked, n, sources, destination, Some(policy), answers);
        asked := asked + {n};
        var verdict := AskNode(n, partitioned[n], destination, policy, answers, before, sources);
        if verdict.Err? {
          r := verdict;
        }
      }
    }

    /** One node's answer about its own among the references; a node that is not registered cannot be
        contacted. Since `before`, nothing but defaults was stored. */
    method AskNode(n: NodeId, mine: Provenance.References, destination: LocalizedResource,
                   policy: Compliance.Policy, answers: Answers,
                   ghost before: PolicyTables, ghost refs: Provenance.References)
      returns (r: Result<(), Error>)
      requires Valid() && SameTables(before, Policies())
      requires mine == set x | x in refs && x.nodeId == n
      modifies compliances
      ensures SameTables(before, Policies())
      ensures r.Ok? <==> NodeGrants(before, n, refs, destination, Some(policy), answers)
    {
      NodeAnswersForItself(before, Policies(), n, refs, mine, destination, Some(policy), answers);
      if n !in middlewares {
        return Err(TransportFailedToContactRemote(n));
      }
      var middleware := middlewares[n];
      r := middleware.CheckSourceCompliance(mine, destination, policy, if n in answers then answers[n] else map[]);
    }
  }
}

/**
 What a node does for its processes: enrolment, `IoRequest` and `IoReport`, with
 every other node reached through the loopback transport.

 Each method is one call without interleaving; `Protocol` is about the
 interleavings.
 */
module P2m {
  import opened Wrappers
  import opened Naming
  import opened M2m
  import Sequencer
  import Provenance
  import Compliance

  /** A reference passes the four rules against the policy of the target, each policy taken from its own node. */
  ghost predicate PassesAtItsNode(tables: PolicyTables, x: LocalizedResource, target: LocalizedResource,
                                  answers: Answers)
    requires target.nodeId in tables
  {
    && x.nodeId in tables
    && Compliance.SourcePasses(tables[x.nodeId], x.resource,
                               Compliance.Lookup(tables[target.nodeId], target.resource),
                               ConsentingAt(answers, x.nodeId))
  }

  ghost predicate AllPass(tables: PolicyTables, refs: Provenance.References, target: LocalizedResource,
                          answers: Answers)
  {
    target.nodeId in tables && forall x :: x in refs ==> PassesAtItsNode(tables, x, target, answers)
  }

  /** The policy sent to the other nodes, if there is one to send. */
  ghost function PolicySent(tables: PolicyTables, own: NodeId, target: LocalizedResource,
                            policy: Option<Compliance.Policy>): Option<Compliance.Policy>
    requires own in tables
  {
    if policy.Some? then policy
    else if target.resource.IsStream() then None
    else Some(Compliance.Lookup(tables[own], target.resource))
  }

  /** The verdict as the nodes reach it: first the own references, then those of the other nodes. */
  ghost predicate NodesPass(tables: PolicyTables, own: NodeId, refs: Provenance.References, target: LocalizedResource,
                            policy: Option<Compliance.Policy>, answers: Answers)
    requires own in tables
  {
    && NodeGrants(tables, own, refs, target, policy, answers)
    && (NodesOf(refs) - {own} == {}
        || (&& PolicySent(tables, own, target, policy).Some?
            && AllGrant(tables, NodesOf(refs) - {own}, refs, target, PolicySent(tables, own, target, policy), answers)))
  }

  /** Node by node is all at once, except that without the policy of a stream only own references may pass, and
      those only if the stream's peer is on the own node. */
  lemma NodesPassIffAllPass(tables: PolicyTables, own: NodeId, refs: Provenance.References, target: LocalizedResource,
                            policy: Option<Compliance.Policy>, answers: Answers)
    requires own in tables && (!target.resource.IsStream() ==> target.nodeId == own)
    requires policy.Some? ==> && target.resource.IsStream() && target.nodeId in tables
                              && policy.value == Compliance.Lookup(tables[target.nodeId], target.resource)
    ensures NodesPass(tables, own, refs, target, policy, answers)
       <==> && AllPass(tables, refs, target, answers)
            && (target.resource.IsStream() && policy.None? ==> target.nodeId == own && NodesOf(refs) <= {own})
  {
    var sent := PolicySent(tables, own, target, policy);
    if NodesPass(tables, own, refs, target, policy, answers) {
      forall x | x in refs
        ensures PassesAtItsNode(tables, x, target, answers)
      {
        NodePassesIt(tables, own, refs, target, policy, answers, x);
      }
    }
    if AllPass(tables, refs, target, answers) && (target.nodeId == own || policy.Some?) {
      PassesAtEveryNode(tables, refs, target, if sent.Some? then sent else policy, answers);
    }
  }

  lemma NodePassesIt(tables: PolicyTables, own: NodeId, refs: Provenance.References, target: LocalizedResource,
                     policy: Option<Compliance.Policy>, answers: Answers, x: LocalizedResource)
    requires own in tables && x in refs
    requires policy.Some? ==> && target.resource.IsStream() && target.nodeId in tables
                              && policy.value == Compliance.Lookup(tables[target.nodeId], target.resource)
    requires !target.resource.IsStream() ==> target.nodeId == own
    requires NodesPass(tables, own, refs, target, policy, answers)
    ensures target.nodeId in tables && PassesAtItsNode(tables, x, target, answers)
  {
    assert x.nodeId in NodesOf(refs);
    assert x.resource in Provenance.RefsAt(refs, x.nodeId);
    if x.nodeId != own {
      assert x.nodeId in NodesOf(refs) - {own};
      assert NodeGrants(tables, x.nodeId, refs, target, PolicySent(tables, own, target, policy), answers);
    }
  }

  lemma PassesAtEveryNode(tables: PolicyTables, refs: Provenance.References, target: LocalizedResource,
                          policy: Option<Compliance.Policy>, answers: Answers)
    requires AllPass(tables, refs, target, answers)
    requires policy.Some? ==> policy.value == Compliance.Lookup(tables[target.nodeId], target.resource)
    ensures forall n :: n in tables && (policy.Some? || n == target.nodeId) ==>
              NodeGrants(tables, n, refs, target, policy, answers)
    ensures NodesOf(refs) <= tables.Keys
  {
    forall n | n in tables && (policy.Some? || n == target.nodeId)
      ensures NodeGrants(tables, n, refs, target, policy, answers)
    {
      forall r | r in Provenance.RefsAt(refs, n)
        ensures PassesAtItsNode(tables, LocalizedResource(n, r), target, answers)
      {
      }
    }
  }

  /** The policy of the peer's end of a stream is there exactly if that end could be reserved. */
  ghost predicate Fetched(flows: FlowTables, tables: PolicyTables, target: LocalizedResource,
                          policy: Option<Compliance.Policy>)
    requires flows.Keys == tables.Keys
  {
    && (policy.Some? <==> target.resource.IsStream() && PeerAvailable(flows, target))
    && (policy.Some? ==> policy.value == Compliance.Lookup(tables[target.nodeId], target.resource))
  }

  /** The verdict, and that a denial keeps its reservation exactly if no policy is there for other nodes to use. */
  ghost predicate Verdict(tables: PolicyTables, own: NodeId, refs: Provenance.References, target: LocalizedResource,
                          policy: Option<Compliance.Policy>, answers: Answers, granted: bool, release: bool)
    requires own in tables
  {
    && (granted <==> NodesPass(tables, own, refs, target, policy, answers))
    && (!release <==> && policy.None? && target.resource.IsStream() && !(NodesOf(refs) <= {own})
                      && NodeGrants(tables, own, refs, target, policy, answers))
  }

  function Ends(enrolled: (Resource, Resource), output: bool): (Resource, Resource) {
    if output then enrolled else (enrolled.1, enrolled.0)
  }

  ghost function Reserved(flows: FlowTables, n: NodeId, source: Resource, destination: Resource): FlowTables
    requires n in flows
  {
    flows[n := flows[n][destination := source]]
  }

  ghost function Dropped(flows: FlowTables, x: LocalizedResource): FlowTables
    requires x.nodeId in flows
  {
    flows[x.nodeId := flows[x.nodeId] - {x.resource}]
  }

  /** What is left of the reservations if `x` is kept, or dropped. */
  ghost function Left(flows: FlowTables, x: LocalizedResource, kept: bool): FlowTables
    requires x.nodeId in flows
  {
    if kept then flows else Dropped(flows, x)
  }

  ghost function PeerHeld(flows: FlowTables, target: LocalizedResource): FlowTables {
    if target.resource.IsStream() then HoldPeer(flows, target) else flows
  }

  /** The peer's end of a stream that cannot be reserved once the own flow is. */
  ghost predicate Unheld(flows: FlowTables, own: NodeId, source: Resource, destination: Resource,
                         target: LocalizedResource)
    requires own in flows
  {
    target.resource.IsStream() && !PeerAvailable(Reserved(flows, own, source, destination), target)
  }

  /** What a request comes to. It is granted exactly if the own flow and the peer's end can be reserved and every
      reference passes; but with a peer on the own node it is enough that every reference is of this node. A denial
      keeps what it holds of the peer's, and in one case its own reservation as well. */
  ghost predicate Answered(resolve: Resolver, flows: FlowTables, tables: PolicyTables, own: NodeId,
                           source: Resource, destination: Resource, refs: Provenance.References, answers: Answers,
                           granted: bool, after: FlowTables)
    requires own in flows
  {
    var target := IntoLocalized(resolve, destination, own);
    if !Sequencer.MayReserve(flows[own], source, destination) then !granted && after == flows
    else
      var held := PeerHeld(Reserved(flows, own, source, destination), target);
      var unheld := Unheld(flows, own, source, destination, target);
      var keeps := unheld && !(NodesOf(refs) <= {own}) && NodeGrants(tables, own, refs, target, None, answers);
      && (granted <==> && AllPass(tables, refs, target, answers)
                       && (unheld ==> target.nodeId == own && NodesOf(refs) <= {own}))
      && after == Left(held, LocalizedResource(own, destination), granted || keeps)
  }

  /** A peer on another node: both ends are reserved or nothing is granted, and a denial leaves the tables as they
      were but for the peer's end. */
  lemma PeerElsewhereIsAnswered(resolve: Resolver, flows: FlowTables, tables: PolicyTables, own: NodeId,
                                source: Resource, destination: Resource, refs: Provenance.References,
                                answers: Answers, granted: bool, after: FlowTables)
    requires own in flows && Sequencer.MayReserve(flows[own], source, destination)
    requires var target := IntoLocalized(resolve, destination, own);
             target.resource.IsStream() ==> target.nodeId != own
    ensures var target := IntoLocalized(resolve, destination, own);
            Answered(resolve, flows, tables, own, source, destination, refs, answers, granted, after) <==>
            && (granted <==> && (target.resource.IsStream() ==> PeerAvailable(flows, target))
                             && AllPass(tables, refs, target, answers))
            && after == if granted then Reserved(PeerHeld(flows, target), own, source, destination)
                        else PeerHeld(flows, target)
  {
    ReservationsAreApart(flows, own, source, destination, IntoLocalized(resolve, destination, own));
  }

  /** A request that is not granted leaves the tables as they were if and only if nothing was reserved, or nothing
      at the peer and it did not keep its own reservation. */
  lemma DenialRestoresExactly(resolve: Resolver, flows: FlowTables, tables: PolicyTables, own: NodeId,
                              source: Resource, destination: Resource, refs: Provenance.References,
                              answers: Answers, after: FlowTables)
    requires own in flows
    requires Answered(resolve, flows, tables, own, source, destination, refs, answers, false, after)
    ensures var target := IntoLocalized(resolve, destination, own);
            var unheld := Unheld(flows, own, source, destination, target);
            after == flows <==>
            || !Sequencer.MayReserve(flows[own], source, destination)
            || (&& (target.resource.IsStream() ==> unheld)
                && !(unheld && !(NodesOf(refs) <= {own}) && NodeGrants(tables, own, refs, target, None, answers)))
  {
    var target := IntoLocalized(resolve, destination, own);
    if Sequencer.MayReserve(flows[own], source, destination) {
      var mid := Reserved(flows, own, source, destination);
      assert mid[own] - {destination} == flows[own];
      assert Dropped(mid, LocalizedResource(own, destination)) == flows;
      assert destination !in flows[own] && destination in mid[own];
      if target.resource.IsStream() && !Unheld(flows, own, source, destination, target) {
        assert target.resource !in mid[target.nodeId];
        assert target.resource in after[target.nodeId];
        assert target.resource !in flows[target.nodeId];
      }
    }
  }

  /** With the peer on another node: exactly a denial that found the peer's end free does not leave the tables as
      they were. */
  lemma DenialHoldsPeerExactly(resolve: Resolver, flows: FlowTables, tables: PolicyTables, own: NodeId,
                               source: Resource, destination: Resource, refs: Provenance.References,
                               answers: Answers, after: FlowTables)
    requires own in flows && Sequencer.MayReserve(flows[own], source, destination)
    requires var target := IntoLocalized(resolve, destination, own);
             target.resource.IsStream() ==> target.nodeId != own
    requires Answered(resolve, flows, tables, own, source, destination, refs, answers, false, after)
    ensures var target := IntoLocalized(resolve, destination, own);
            after == flows <==> !(target.resource.IsStream() && PeerAvailable(flows, target))
  {
    var target := IntoLocalized(resolve, destination, own);
    DenialRestoresExactly(resolve, flows, tables, own, source, destination, refs, answers, after);
    ReservationsAreApart(flows, own, source, destination, target);
  }

  /** A request to a deleted target is granted if and only if there is nothing to evaluate: no references but
      streams, which no store holds. */
  lemma DeletedTargetIsGrantedExactly(resolve: Resolver, flows: FlowTables, tables: PolicyTables, own: NodeId,
                                      source: Resource, destination: Resource, refs: Provenance.References,
                                      answers: Answers, granted: bool, after: FlowTables)
    requires own in flows && Sequencer.MayReserve(flows[own], source, destination)
    requires var target := IntoLocalized(resolve, destination, own);
             && target.nodeId in tables
             && Compliance.Lookup(tables[target.nodeId], target.resource).IsDeleted()
    requires Answered(resolve, flows, tables, own, source, destination, refs, answers, granted, after)
    ensures var target := IntoLocalized(resolve, destination, own);
            granted <==>
            && (forall x :: x in refs ==> x.nodeId in tables && x.resource.IsStream())
            && (Unheld(flows, own, source, destination, target) ==> target.nodeId == own && NodesOf(refs) <= {own})
    ensures var target := IntoLocalized(resolve, destination, own);
            (forall x :: x in refs ==> !x.resource.IsStream()) ==>
              (granted <==> refs == {} && (Unheld(flows, own, source, destination, target) ==> target.nodeId == own))
  {
    var target := IntoLocalized(resolve, destination, own);
    forall x | x in refs
      ensures PassesAtItsNode(tables, x, target, answers) <==> x.nodeId in tables && x.resource.IsStream()
    {
    }
    if refs != {} && (forall x :: x in refs ==> !x.resource.IsStream()) {
      var x :| x in refs;
      assert !PassesAtItsNode(tables, x, target, answers);
    }
  }

  /** The own reservation and the peer's are on different nodes, so neither minds the other. */
  lemma ReservationsAreApart(flows: FlowTables, own: NodeId, source: Resource, destination: Resource,
                             target: LocalizedResource)
    requires own in flows && Sequencer.MayReserve(flows[own], source, destination)
    requires target.resource.IsStream() ==> target.nodeId != own
    ensures var mid := Reserved(flows, own, source, destination);
            && (target.resource.IsStream() ==> PeerAvailable(mid, target) == PeerAvailable(flows, target))
            && PeerHeld(mid, target) == Reserved(PeerHeld(flows, target), own, source, destination)
            && Dropped(PeerHeld(mid, target), LocalizedResource(own, destination)) == PeerHeld(flows, target)
  {
    var held := PeerHeld(flows, target);
    assert held[own] == flows[own];
    assert held[own][destination := source] - {destination} == held[own];
  }

  /** Reserving, fetching, evaluating and releasing as the code does comes to that answer. */
  lemma AnswerIsReached(resolve: Resolver, flows: FlowTables, tables: PolicyTables, own: NodeId,
                        source: Resource, destination: Resource, refs: Provenance.References, answers: Answers,
                        policy: Option<Compliance.Policy>, granted: bool, release: bool, after: FlowTables)
    requires own in flows && own in tables && flows.Keys == tables.Keys
    requires Sequencer.MayReserve(flows[own], source, destination)
    requires var target := IntoLocalized(resolve, destination, own);
             var mid := Reserved(flows, own, source, destination);
             && Fetched(mid, tables, target, policy)
             && after == Left(PeerHeld(mid, target), LocalizedResource(own, destination), granted || !release)
             && Verdict(tables, own, refs, target, policy, answers, granted, release)
    ensures Answered(resolve, flows, tables, own, source, destination, refs, answers, granted, after)
  {
    NodesPassIffAllPass(tables, own, refs, IntoLocalized(resolve, destination, own), policy, answers);
  }

  /** The references of a resource of node `own` recorded at a resource of node `n`. */
  ghost function Updated(stores: StoreTables, own: NodeId, n: NodeId, source: Resource, destination: Resource)
    : StoreTables
    requires own in stores && n in stores
  {
    stores[n := Provenance.UpdateRaw(n, stores[n], Provenance.GetProv(own, stores[own], source), destination)]
  }

  /** What a report comes to: recorded at the other end of a stream, which is released too, or at the destination. */
  ghost predicate Reported(resolve: Resolver, flows: FlowTables, stores: StoreTables, own: NodeId,
                           source: Resource, destination: Resource, ok: bool,
                           flowsAfter: FlowTables, storesAfter: StoreTables)
    requires own in flows && flows.Keys == stores.Keys
  {
    match PeerStream(resolve, destination)
    case None =>
      && ok
      && storesAfter == Updated(stores, own, own, source, destination)
      && flowsAfter == Dropped(flows, LocalizedResource(own, destination))
    case Some(peer) =>
      && (ok <==> peer.nodeId in stores)
      && (ok ==> && storesAfter == Updated(stores, own, peer.nodeId, source, peer.resource)
                 && flowsAfter == Dropped(Dropped(flows, peer), LocalizedResource(own, destination)))
      && (!ok ==> storesAfter == stores && flowsAfter == flows)
  }

  class P2mApiService {
    var resourceMap: map<(int, int), (Resource, Resource)>
    var flowMap: map<nat, (Resource, Resource)>
    const resolve: Resolver
    const sequencer: Sequencer.SequencerService
    const provenance: Provenance.ProvenanceService
    const compliance: Compliance.ComplianceService
    const m2m: M2mLoopback

    /** The services of this node are those registered under its name. */
    ghost predicate Valid() {
      && m2m.Valid()
      && this !in m2m.sequencers && this !in m2m.provenances && this !in m2m.compliances
      && provenance.nodeId in m2m.middlewares
      && m2m.middlewares[provenance.nodeId].sequencer == sequencer
      && m2m.middlewares[provenance.nodeId].provenance == provenance
      && m2m.middlewares[provenance.nodeId].compliance == compliance
    }

    constructor (resolve: Resolver, sequencer: Sequencer.SequencerService, provenance: Provenance.ProvenanceService,
                 compliance: Compliance.ComplianceService, m2m: M2mLoopback)
      requires m2m.Valid() && provenance.nodeId in m2m.middlewares
      requires m2m.middlewares[provenance.nodeId].sequencer == sequencer
      requires m2m.middlewares[provenance.nodeId].provenance == provenance
      requires m2m.middlewares[provenance.nodeId].compliance == compliance
      ensures Valid()
      ensures this.resolve == resolve && this.sequencer == sequencer && this.provenance == provenance
      ensures this.compliance == compliance && this.m2m == m2m
      ensures resourceMap == map[] && flowMap == map[]
    {
      this.resolve, this.sequencer, this.provenance := resolve, sequencer, provenance;
      this.compliance, this.m2m := compliance, m2m;
      resourceMap, flowMap := map[], map[];
    }

    method LocalEnroll(pid: int, descriptor: int, startTime: nat, exePath: string, path: string)
      modifies `resourceMap
      ensures resourceMap == old(resourceMap)[(pid, descriptor) :=
                (Process(pid, startTime, exePath), Descriptor(File(path)))]
    {
      resourceMap := resourceMap[(pid, descriptor) := (Process(pid, startTime, exePath), Descriptor(File(path)))];
    }

    method RemoteEnroll(pid: int, descriptor: int, startTime: nat, exePath: string, local: string, peer: string)
      modifies `resourceMap
      ensures resourceMap == old(resourceMap)[(pid, descriptor) :=
                (Process(pid, startTime, exePath), Descriptor(Stream(local, peer)))]
    {
      resourceMap := resourceMap[(pid, descriptor) :=
                       (Process(pid, startTime, exePath), Descriptor(Stream(local, peer)))];
    }

    /** The policy of the target of a stream; an error on the way counts as no policy. */
    method FetchPolicy(target: LocalizedResource) returns (policy: Option<Compliance.Policy>)
      requires Valid()
      modifies m2m.sequencers, m2m.compliances
      ensures SameTables(old(m2m.Policies()), m2m.Policies())
      ensures m2m.Flows() == PeerHeld(old(m2m.Flows()), target)
      ensures provenance.provenance == old(provenance.provenance)
      ensures Fetched(old(m2m.Flows()), old(m2m.Policies()), target, policy)
    {
      policy := None;
      if target.resource.IsStream() {
        var answer := m2m.GetDestinationPolicy(target);
        if answer.Ok? {
          policy := Some(answer.value);
        }
      }
    }

    /** This node's answer about its own references. */
    method EvalLocal(refs: Provenance.References, target: LocalizedResource, policy: Option<Compliance.Policy>,
                     answers: Answers, ghost before: PolicyTables)
      returns (r: Result<(), Error>)
      requires Valid() && SameTables(before, m2m.Policies())
      modifies m2m.compliances
      ensures SameTables(before, m2m.Policies())
      ensures r.Ok? <==> NodeGrants(before, provenance.nodeId, refs, target, policy, answers)
      ensures m2m.Flows() == old(m2m.Flows())
    {
      var n := provenance.nodeId;
      ghost var now := m2m.Policies();
      var verdict := compliance.EvalCompliance(Provenance.RefsAt(refs, n), target, policy,
                                               if n in answers then answers[n] else map[]);
      OwnAnswer(before, now, n, compliance.policies, refs, target, policy, answers);
      assert m2m.Policies() == now[n := compliance.policies];
      r := if verdict.Ok? then Ok(()) else Err(Denied(verdict.error));
    }

    /** The policy to send to the other nodes: the one obtained, or the own one of a file or a process. */
    method PolicyToSend(target: LocalizedResource, policy: Option<Compliance.Policy>, ghost before: PolicyTables)
      returns (sent: Option<Compliance.Policy>)
      requires Valid() && SameTables(before, m2m.Policies())
      modifies m2m.compliances
      ensures SameTables(before, m2m.Policies())
      ensures sent == PolicySent(before, provenance.nodeId, target, policy)
      ensures m2m.Flows() == old(m2m.Flows())
    {
      if policy.Some? || target.resource.IsStream() {
        return policy;
      }
      var own := compliance.GetPolicy(target.resource);
      return Some(own);
    }

    /** The other nodes' answers. */
    method EvalRemote(refs: Provenance.References, target: LocalizedResource, policy: Compliance.Policy,
                      answers: Answers, ghost before: PolicyTables)
      returns (r: Result<(), Error>)
      requires Valid() && SameTables(before, m2m.Policies())
      modifies m2m.compliances
      ensures SameTables(before, m2m.Policies())
      ensures r.Ok? <==> AllGrant(before, NodesOf(refs) - {provenance.nodeId}, refs, target, Some(policy), answers)
      ensures m2m.Flows() == old(m2m.Flows())
    {
      var remote := set x | x in refs && x.nodeId != provenance.nodeId;
      RemoteAnswers(before, m2m.Policies(), provenance.nodeId, refs, remote, target, Some(policy), answers);
      r := m2m.CheckSourceCompliance(remote, target, policy, answers);
    }

    /** The verdict on a request. In one case the request returns at once, without releasing what it reserved. */
    method Authorise(refs: Provenance.References, target: LocalizedResource, policy: Option<Compliance.Policy>,
                          answers: Answers, ghost before: PolicyTables)
      returns (r: Result<(), Error>, release: bool)
      requires Valid() && SameTables(before, m2m.Policies())
      modifies m2m.compliances
      ensures SameTables(before, m2m.Policies())
      ensures Verdict(before, provenance.nodeId, refs, target, policy, answers, r.Ok?, release)
      ensures m2m.Flows() == old(m2m.Flows())
      ensures provenance.provenance == old(provenance.provenance)
    {
      release := true;
      r := EvalLocal(refs, target, policy, answers, before);
      if r.Ok? && NodesOf(refs) - {provenance.nodeId} != {} {
        var sent := PolicyToSend(target, policy, before);
        if sent.None? {
          return Err(InternalTrace2eError), false;
        }
        r := EvalRemote(refs, target, sent.value, answers, before);
      }
    }

    method ReserveOwn(source: Resource, destination: Resource) returns (reserved: bool)
      requires Valid()
      modifies sequencer
      ensures reserved <==> Sequencer.MayReserve(old(m2m.Flows())[provenance.nodeId], source, destination)
      ensures m2m.Flows() == if reserved
                             then Reserved(old(m2m.Flows()), provenance.nodeId, source, destination)
                             else old(m2m.Flows())
      ensures m2m.Policies() == old(m2m.Policies())
      ensures provenance.provenance == old(provenance.provenance)
    {
      ghost var own := provenance.nodeId;
      var outcome := sequencer.MakeFlow(source, destination);
      assert m2m.Flows() == old(m2m.Flows())[own := sequencer.flows];
      reserved := outcome.Ok?;
    }

    method ReleaseOwn(destination: Resource)
      requires Valid()
      modifies sequencer
      ensures m2m.Flows() == Dropped(old(m2m.Flows()), LocalizedResource(provenance.nodeId, destination))
      ensures m2m.Policies() == old(m2m.Policies()) && m2m.Stores() == old(m2m.Stores())
      ensures provenance.provenance == old(provenance.provenance)
    {
      ghost var own := provenance.nodeId;
      var _ := sequencer.DropFlow(destination);
      assert m2m.Flows() == old(m2m.Flows())[own := sequencer.flows];
    }

    /** From the reservation of the own flow to the verdict and what it releases. */
    method Proceed(source: Resource, destination: Resource, answers: Answers, ghost flows: FlowTables)
      returns (r: Result<(), Error>)
      requires Valid() && provenance.nodeId in flows
      requires Sequencer.MayReserve(flows[provenance.nodeId], source, destination)
      requires m2m.Flows() == Reserved(flows, provenance.nodeId, source, destination)
      modifies m2m.sequencers, m2m.compliances
      ensures SameTables(old(m2m.Policies()), m2m.Policies())
      ensures provenance.provenance == old(provenance.provenance)
      ensures Answered(resolve, flows, old(m2m.Policies()), provenance.nodeId, source, destination,
                       Provenance.GetProv(provenance.nodeId, provenance.provenance, source), answers,
                       r.Ok?, m2m.Flows())
    {
      ghost var before := m2m.Policies();
      var target := IntoLocalized(resolve, destination, provenance.nodeId);
      var policy := FetchPolicy(target);
      r := Decide(source, destination, target, policy, answers, before, flows);
    }

    /** The verdict and what it releases, once the policy of the target was asked for. */
    method Decide(source: Resource, destination: Resource, target: LocalizedResource,
                  policy: Option<Compliance.Policy>, answers: Answers,
                  ghost before: PolicyTables, ghost flows: FlowTables)
      returns (r: Result<(), Error>)
      requires Valid() && SameTables(before, m2m.Policies()) && flows.Keys == before.Keys
      requires Sequencer.MayReserve(flows[provenance.nodeId], source, destination)
      requires target == IntoLocalized(resolve, destination, provenance.nodeId)
      requires Fetched(Reserved(flows, provenance.nodeId, source, destination), before, target, policy)
      requires m2m.Flows() == PeerHeld(Reserved(flows, provenance.nodeId, source, destination), target)
      modifies sequencer, m2m.compliances
      ensures SameTables(before, m2m.Policies())
      ensures provenance.provenance == old(provenance.provenance)
      ensures Answered(resolve, flows, before, provenance.nodeId, source, destination,
                       Provenance.GetProv(provenance.nodeId, provenance.provenance, source), answers,
                       r.Ok?, m2m.Flows())
    {
      var release;
      r, release := Conclude(source, destination, target, policy, answers, before);
      AnswerIsReached(resolve, flows, before, provenance.nodeId, source, destination,
                      Provenance.GetProv(provenance.nodeId, provenance.provenance, source), answers, policy,
                      r.Ok?, release, m2m.Flows());
    }

    /** The verdict, and what a denial releases. */
    method Conclude(source: Resource, destination: Resource, target: LocalizedResource,
                    policy: Option<Compliance.Policy>, answers: Answers, ghost before: PolicyTables)
      returns (r: Result<(), Error>, release: bool)
      requires Valid() && SameTables(before, m2m.Policies())
      modifies sequencer, m2m.compliances
      ensures SameTables(before, m2m.Policies())
      ensures provenance.provenance == old(provenance.provenance)
      ensures Verdict(before, provenance.nodeId, Provenance.GetProv(provenance.nodeId, provenance.provenance, source),
                      target, policy, answers, r.Ok?, release)
      ensures m2m.Flows()
           == Left(old(m2m.Flows()), LocalizedResource(provenance.nodeId, destination), r.Ok? || !release)
    {
      var refs := provenance.GetReferences(source);
      r, release := Authorise(refs, target, policy, answers, before);
      if r.Err? && release {
        ReleaseOwn(destination);
      }
    }

    /** The reservation of the own flow and, if it could be made, the rest. */
    method Request(source: Resource, destination: Resource, answers: Answers) returns (r: Result<(), Error>)
      requires Valid()
      modifies m2m.sequencers, m2m.compliances
      ensures SameTables(old(m2m.Policies()), m2m.Policies())
      ensures provenance.provenance == old(provenance.provenance)
      ensures Answered(resolve, old(m2m.Flows()), old(m2m.Policies()), provenance.nodeId, source, destination,
                       Provenance.GetProv(provenance.nodeId, provenance.provenance, source), answers,
                       r.Ok?, m2m.Flows())
    {
      ghost var flows := m2m.Flows();
      var reserved := ReserveOwn(source, destination);
      if !reserved {
        return Err(InternalTrace2eError);
      }
      r := Proceed(source, destination, answers, flows);
    }

    /** One request, undisturbed. */
    method IoRequest(pid: int, descriptor: int, output: bool, flowId: nat, answers: Answers)
      returns (r: Result<nat, Error>)
      requires Valid()
      modifies `flowMap, m2m.sequencers, m2m.compliances
      ensures SameTables(old(m2m.Policies()), m2m.Policies())
      ensures (pid, descriptor) !in resourceMap ==>
                r == Err(UndeclaredResource(pid, descriptor)) && m2m.Flows() == old(m2m.Flows())
      ensures r.Ok? ==> (pid, descriptor) in resourceMap && r.value == flowId
      ensures flowMap == if r.Ok? then old(flowMap)[flowId := Ends(resourceMap[(pid, descriptor)], output)]
                         else old(flowMap)
      ensures (pid, descriptor) in resourceMap ==>
                var (source, destination) := Ends(resourceMap[(pid, descriptor)], output);
                Answered(resolve, old(m2m.Flows()), old(m2m.Policies()), provenance.nodeId, source, destination,
                         Provenance.GetProv(provenance.nodeId, provenance.provenance, source), answers,
                         r.Ok?, m2m.Flows())
    {
      if (pid, descriptor) !in resourceMap {
        return Err(UndeclaredResource(pid, descriptor));
      }
      var (source, destination) := Ends(resourceMap[(pid, descriptor)], output);
      var verdict := Request(source, destination, answers);
      if verdict.Err? {
        return Err(verdict.error);
      }
      AddFlow(flowId, source, destination);
      r := Ok(flowId);
    }

    /** Records the granted flow where its destination is, at this node or at the peer, and releases it. If the
        peer cannot be reached, nothing is recorded and the flow stays reserved although its grant is gone. */
    method IoReport(grantId: nat) returns (r: Result<(), Error>)
      requires Valid()
      modifies `flowMap, m2m.sequencers, m2m.provenances
      ensures flowMap == old(flowMap) - {grantId}
      ensures grantId !in old(flowMap) ==>
                r == Err(NotFoundFlow(grantId)) && m2m.Flows() == old(m2m.Flows()) && m2m.Stores() == old(m2m.Stores())
      ensures grantId in old(flowMap) ==>
                var (source, destination) := old(flowMap)[grantId];
                Reported(resolve, old(m2m.Flows()), old(m2m.Stores()), provenance.nodeId, source, destination,
                         r.Ok?, m2m.Flows(), m2m.Stores())
    {
      if grantId !in flowMap {
        return Err(NotFoundFlow(grantId));
      }
      var (source, destination) := flowMap[grantId];
      RemoveFlow(grantId);
      r := Report(source, destination);
    }

    method Report(source: Resource, destination: Resource) returns (r: Result<(), Error>)
      requires Valid()
      modifies m2m.sequencers, m2m.provenances
      ensures Reported(resolve, old(m2m.Flows()), old(m2m.Stores()), provenance.nodeId, source, destination,
                       r.Ok?, m2m.Flows(), m2m.Stores())
    {
      var peer := PeerStream(resolve, destination);
      if peer.Some? {
        var references := provenance.GetReferences(source);
        r := m2m.UpdateProvenance(references, peer.value);
        if r.Err? {
          return;
        }
      } else {
        r := Ok(());
        RecordOwn(source, destination);
      }
      ReleaseOwn(destination);
    }

    method RecordOwn(source: Resource, destination: Resource)
      requires Valid()
      modifies provenance
      ensures m2m.Stores() == Updated(old(m2m.Stores()), provenance.nodeId, provenance.nodeId, source, destination)
      ensures m2m.Flows() == old(m2m.Flows())
    {
      ghost var own := provenance.nodeId;
      var _ := provenance.Update(source, destination);
      assert m2m.Stores() == old(m2m.Stores())[own := provenance.provenance];
    }

    method RemoveFlow(flowId: nat)
      requires Valid()
      modifies `flowMap
      ensures flowMap == old(flowMap) - {flowId}
      ensures m2m.Flows() == old(m2m.Flows()) && m2m.Stores() == old(m2m.Stores())
    {
      flowMap := flowMap - {flowId};
    }

    method AddFlow(flowId: nat, source: Resource, destination: Resource)
      requires Valid()
      modifies `flowMap
      ensures flowMap == old(flowMap)[flowId := (source, destination)]
      ensures m2m.Flows() == old(m2m.Flows()) && m2m.Policies() == old(m2m.Policies())
      ensures provenance.provenance == old(provenance.provenance)
    {
      flowMap := flowMap[flowId := (source, destination)];
    }
  }

  lemma OwnAnswer(before: PolicyTables, now: PolicyTables, own: NodeId, after: Compliance.Policies,
                  refs: Provenance.References, target: LocalizedResource, policy: Option<Compliance.Policy>,
                  answers: Answers)
    requires SameTables(before, now) && own in now && Compliance.SameLookups(now[own], after)
    ensures NodeGrants(before, own, refs, target, policy, answers)
       <==> Compliance.EvalGrants(now[own], own, Provenance.RefsAt(refs, own), target, policy,
                                  ConsentingAt(answers, own))
    ensures SameTables(before, now[own := after])
  {
    var mine := set x | x in refs && x.nodeId == own;
    NodeAnswersForItself(before, now, own, refs, mine, target, policy, answers);
    assert Provenance.RefsAt(mine, own) == Provenance.RefsAt(refs, own);
  }

  lemma RemoteAnswers(before: PolicyTables, now: PolicyTables, own: NodeId, refs: Provenance.References,
                      remote: Provenance.References, target: LocalizedResource, policy: Option<Compliance.Policy>,
                      answers: Answers)
    requires SameTables(before, now) && remote == set x | x in refs && x.nodeId != own
    ensures NodesOf(remote) == NodesOf(refs) - {own}
    ensures AllGrant(now, NodesOf(remote), remote, target, policy, answers)
       <==> AllGrant(before, NodesOf(remote), refs, target, policy, answers)
  {
    forall n | n in NodesOf(remote)
      ensures NodeGrants(now, n, remote, target, policy, answers)
           == NodeGrants(before, n, refs, target, policy, answers)
    {
      var mine := set x | x in refs && x.nodeId == n;
      NodeAnswersForItself(before, now, n, refs, mine, target, policy, answers);
      NodeAnswersForItself(now, now, n, remote, mine, target, policy, answers);
    }
  }
}

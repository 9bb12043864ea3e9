/**
 What crosses the network between nodes: the protocol-buffer forms of resources,
 destinations, policies and provenance, where every message field may be absent.
 */
module Wire {
  import opened Wrappers
  import opened Naming
  import Consent
  import Compliance

  datatype ProtoFdCase = FileCase(path: string) | StreamCase(localSocket: string, peerSocket: string)
  datatype ProtoFd = ProtoFd(fd: Option<ProtoFdCase>)
  datatype ProtoResourceCase = FdCase(fd: ProtoFd) | ProcessCase(pid: int, startTime: nat, exePath: string)
  datatype ProtoResource = ProtoResource(resource: Option<ProtoResourceCase>)
  datatype ProtoLocalized = ProtoLocalized(nodeId: string, resource: Option<ProtoResource>)
  datatype ProtoDestination = ProtoDestination(destination: Option<ProtoDestinationCase>)
  datatype ProtoDestinationCase =
    | ResourceCase(resource: Option<ProtoLocalized>, parent: Option<ProtoDestination>)
    | NodeCase(node: string)

  // ---------------------------------------------------------------- resources

  function DecodeFd(p: ProtoFd): Fd {
    match p.fd
    case Some(FileCase(path)) => File(path)
    case Some(StreamCase(local, peer)) => Stream(local, peer)
    case None => File("")
  }

  function DecodeResource(p: ProtoResource): Resource {
    match p.resource
    case Some(FdCase(fd)) => Descriptor(DecodeFd(fd))
    case Some(ProcessCase(pid, startTime, exePath)) => Process(pid, startTime, exePath)
    case None => Null
  }

  function EncodeResource(r: Resource): (p: ProtoResource)
    ensures DecodeResource(p) == r
  {
    match r
    case Descriptor(File(path)) => ProtoResource(Some(FdCase(ProtoFd(Some(FileCase(path))))))
    case Descriptor(Stream(local, peer)) => ProtoResource(Some(FdCase(ProtoFd(Some(StreamCase(local, peer))))))
    case Process(pid, startTime, exePath) => ProtoResource(Some(ProcessCase(pid, startTime, exePath)))
    case Null => ProtoResource(None)
  }

  function DecodeLocalized(p: ProtoLocalized): LocalizedResource {
    LocalizedResource(p.nodeId, if p.resource.Some? then DecodeResource(p.resource.value) else Null)
  }

  function EncodeLocalized(r: LocalizedResource): (p: ProtoLocalized)
    ensures DecodeLocalized(p) == r
  {
    ProtoLocalized(r.nodeId, Some(EncodeResource(r.resource)))
  }

  /** A message decodes to a resource if and only if it is the encoding of that resource, or has a descriptor with
      nothing in it, which counts as a file without a path. */
  lemma ResourceDecodesExactly(p: ProtoResource, r: Resource)
    ensures DecodeResource(p) == r <==>
            || p == EncodeResource(r)
            || (p == ProtoResource(Some(FdCase(ProtoFd(None)))) && r == Descriptor(File("")))
  {
    match p
    case ProtoResource(Some(FdCase(ProtoFd(Some(FileCase(path)))))) =>
      assert EncodeResource(Descriptor(File(path))) == p;
    case ProtoResource(Some(FdCase(ProtoFd(Some(StreamCase(local, peer)))))) =>
      assert EncodeResource(Descriptor(Stream(local, peer))) == p;
    case ProtoResource(Some(FdCase(ProtoFd(None)))) =>
    case ProtoResource(Some(ProcessCase(pid, startTime, exePath))) =>
      assert EncodeResource(Process(pid, startTime, exePath)) == p;
    case ProtoResource(None) =>
      assert EncodeResource(Null) == p;
  }

  /** The same for a localized resource, where an absent resource counts as none. */
  lemma LocalizedDecodesExactly(p: ProtoLocalized, r: LocalizedResource)
    ensures DecodeLocalized(p) == r <==>
            && p.nodeId == r.nodeId
            && (match p.resource
                case Some(q) => DecodeResource(q) == r.resource
                case None => r.resource == Null)
  {
  }

  // ---------------------------------------------------------------- destinations

  function DecodeDestination(p: ProtoDestination): Consent.Destination {
    match p.destination
    case Some(ResourceCase(Some(r), parent)) =>
      Consent.Scoped(DecodeLocalized(r).resource,
                     match parent case Some(q) => Some(DecodeDestination(q)) case None => None)
    case Some(ResourceCase(None, _)) => Consent.Scoped(Null, None)
    case Some(NodeCase(node)) => Consent.OfNode(node)
    case None => Consent.OfNode("")
  }

  /** The node is sent twice, with the resource and as its parent; only the parent is read back, so a
      destination of any depth comes back as it was. */
  function EncodeDestination(d: Consent.Destination): (p: ProtoDestination)
    ensures DecodeDestination(p) == d
    ensures d.Scoped? ==> && p.destination.Some? && p.destination.value.ResourceCase?
                          && p.destination.value.resource
                             == Some(EncodeLocalized(LocalizedResource(
                                       if d.parent.Some? && d.parent.value.OfNode? then d.parent.value.node else "",
                                       d.resource)))
  {
    match d
    case Scoped(resource, Some(parent)) =>
      var node := if parent.OfNode? then parent.node else "";
      ProtoDestination(Some(ResourceCase(Some(EncodeLocalized(LocalizedResource(node, resource))),
                                         Some(EncodeDestination(parent)))))
    case Scoped(resource, None) =>
      ProtoDestination(Some(ResourceCase(Some(EncodeLocalized(LocalizedResource("", resource))), None)))
    case OfNode(node) => ProtoDestination(Some(NodeCase(node)))
  }

  /** What an incomplete destination decodes to: without content the node without a name, without a resource nothing,
      whatever its parent. */
  lemma IncompleteDestinations(parent: Option<ProtoDestination>)
    ensures DecodeDestination(ProtoDestination(None)) == Consent.OfNode("")
    ensures DecodeDestination(ProtoDestination(Some(ResourceCase(None, parent)))) == Consent.Scoped(Null, None)
  {
  }

  // ---------------------------------------------------------------- policies

  const PUBLIC := 0
  const SECRET := 1

  datatype ProtoPolicy = ProtoPolicy(confidentiality: int, integrity: u32, deleted: bool, consent: bool)

  function EncodePolicy(p: Compliance.Policy): ProtoPolicy {
    ProtoPolicy(if p.confidentiality == Compliance.Secret then SECRET else PUBLIC, p.integrity, p.IsDeleted(),
                p.consent)
  }

  function DecodePolicy(p: ProtoPolicy): Compliance.Policy {
    Compliance.Policy(if p.confidentiality == SECRET then Compliance.Secret else Compliance.Public, p.integrity,
                      if p.deleted then Compliance.Deleted else Compliance.NotDeleted, p.consent)
  }

  function Sent(p: Compliance.Policy): Compliance.Policy {
    DecodePolicy(EncodePolicy(p))
  }

  /** A policy is sent faithfully exactly if it is not pending deletion, and twice is as good as once. */
  lemma PendingCollapses(p: Compliance.Policy)
    ensures Sent(p) == p <==> p.deleted != Compliance.Pending
    ensures Sent(p) == Compliance.Policy(p.confidentiality, p.integrity,
                                         if p.deleted == Compliance.NotDeleted then Compliance.NotDeleted
                                         else Compliance.Deleted,
                                         p.consent)
    ensures Sent(Sent(p)) == Sent(p)
    ensures EncodePolicy(p).confidentiality == if p.confidentiality == Compliance.Secret then 1 else 0
  {
  }

  /** A node reaches the same verdict with the policy it was sent as with the original. */
  lemma VerdictSurvivesWire(policies: Compliance.Policies, node: NodeId, sources: set<Resource>,
                            destination: LocalizedResource, policy: Compliance.Policy, consenting: set<Resource>)
    ensures Compliance.EvalGrants(policies, node, sources, destination, Some(Sent(policy)), consenting)
       <==> Compliance.EvalGrants(policies, node, sources, destination, Some(policy), consenting)
  {
    forall s
      ensures Compliance.SourcePasses(policies, s, Sent(policy), consenting)
         <==> Compliance.SourcePasses(policies, s, policy, consenting)
    {
    }
  }

  // ---------------------------------------------------------------- provenance

  /** The references of one node. */
  datatype References = References(node: NodeId, resources: seq<ProtoResource>)

  /** What the receiver makes of the groups. */
  ghost predicate Ungroups(groups: seq<References>, r: LocalizedResource) {
    exists i, j :: 0 <= i < |groups| && 0 <= j < |groups[i].resources|
                   && r == LocalizedResource(groups[i].node, DecodeResource(groups[i].resources[j]))
  }

  type Grouped = map<NodeId, seq<ProtoResource>>

  ghost predicate Carries(grouped: Grouped, r: LocalizedResource) {
    && r.nodeId in grouped
    && exists j :: 0 <= j < |grouped[r.nodeId]| && DecodeResource(grouped[r.nodeId][j]) == r.resource
  }

  function Push(grouped: Grouped, r: LocalizedResource): Grouped {
    grouped[r.nodeId := (if r.nodeId in grouped then grouped[r.nodeId] else []) + [EncodeResource(r.resource)]]
  }

  lemma PushCarries(grouped: Grouped, r: LocalizedResource, q: LocalizedResource)
    ensures Carries(Push(grouped, r), q) <==> Carries(grouped, q) || q == r
  {
    var after := Push(grouped, r);
    if q.nodeId == r.nodeId {
      var before := if r.nodeId in grouped then grouped[r.nodeId] else [];
      assert after[r.nodeId] == before + [EncodeResource(r.resource)];
      assert after[r.nodeId][|before|] == EncodeResource(r.resource);
      if Carries(grouped, q) {
        var j :| 0 <= j < |before| && DecodeResource(before[j]) == q.resource;
        assert after[r.nodeId][j] == before[j];
      }
    }
  }

  /** Groups a set of references by node, one group a node. */
  method GroupByNode(refs: set<LocalizedResource>) returns (grouped: Grouped)
    ensures forall r :: Carries(grouped, r) <==> r in refs
  {
    grouped := map[];
    var rest := refs;
    while rest != {}
      invariant rest <= refs
      invariant forall r :: Carries(grouped, r) <==> r in refs - rest
      decreases |rest|
    {
      var r :| r in rest;
      rest := rest - {r};
      forall q
        ensures Carries(Push(grouped, r), q) <==> Carries(grouped, q) || q == r
      {
        PushCarries(grouped, r, q);
      }
      grouped := Push(grouped, r);
    }
  }

  ghost predicate Lists(groups: seq<References>, n: NodeId) {
    exists i :: 0 <= i < |groups| && groups[i].node == n
  }

  lemma ListsOneMore(groups: seq<References>, g: References, n: NodeId)
    ensures Lists(groups + [g], n) <==> Lists(groups, n) || g.node == n
  {
    var more := groups + [g];
    assert more[|groups|] == g;
    if i :| 0 <= i < |groups| && groups[i].node == n {
      assert more[i].node == n;
    }
  }

  /** Sending provenance by groups loses and invents nothing. */
  method Group(refs: set<LocalizedResource>) returns (groups: seq<References>)
    ensures forall r :: Ungroups(groups, r) <==> r in refs
    ensures forall i, j :: 0 <= i < j < |groups| ==> groups[i].node != groups[j].node
  {
    var grouped := GroupByNode(refs);
    groups := [];
    var rest := grouped.Keys;
    while rest != {}
      invariant rest <= grouped.Keys
      invariant forall i :: 0 <= i < |groups| ==>
                  groups[i].node in grouped.Keys - rest && groups[i].resources == grouped[groups[i].node]
      invariant forall n :: n in grouped && n !in rest ==> Lists(groups, n)
      invariant forall i, j :: 0 <= i < j < |groups| ==> groups[i].node != groups[j].node
      decreases |rest|
    {
      var n :| n in rest;
      rest := rest - {n};
      forall m
        ensures Lists(groups + [References(n, grouped[n])], m) <==> Lists(groups, m) || n == m
      {
        ListsOneMore(groups, References(n, grouped[n]), m);
      }
      groups := groups + [References(n, grouped[n])];
    }
    GroupsCarry(groups, grouped);
  }

  lemma GroupsCarry(groups: seq<References>, grouped: Grouped)
    requires forall i :: 0 <= i < |groups| ==>
               groups[i].node in grouped && groups[i].resources == grouped[groups[i].node]
    requires forall n :: n in grouped ==> Lists(groups, n)
    ensures forall r :: Ungroups(groups, r) <==> Carries(grouped, r)
  {
    forall r | Carries(grouped, r)
      ensures Ungroups(groups, r)
    {
      var i :| 0 <= i < |groups| && groups[i].node == r.nodeId;
      var j :| 0 <= j < |grouped[r.nodeId]| && DecodeResource(grouped[r.nodeId][j]) == r.resource;
      assert r == LocalizedResource(groups[i].node, DecodeResource(groups[i].resources[j]));
    }
  }
}

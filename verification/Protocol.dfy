/**
 The flow-authorisation protocol of all nodes together, as a transition system.

 `IoRequest` and `IoReport` are cut at their await points: every action below is
 one section that runs without yielding, and the actions of any number of
 requests on any number of nodes interleave freely with each other and with the
 operators' updates. An action that is not enabled leaves the state alone.

 An evaluation takes two actions. The first reads all policies, which fixes the
 verdict on the rules and whom to ask; the second is the arrival of the last
 consent, however much later. Where the rules are broken the answer is a denial
 whatever the owners say, so the request counts as refused from the first on.
 */
module Protocol {
  import opened Wrappers
  import opened Naming
  import Sequencer
  import Provenance
  import Compliance

  type References = Provenance.References
  type Policy = Compliance.Policy

  /** The shared tables of one node: enrolled descriptors, reservations, provenance, policies. */
  datatype Node = Node(
    enrolled: map<(int, int), (Resource, Resource)>,
    flows: Sequencer.Flows,
    prov: Provenance.Store,
    policies: Compliance.Policies)

  datatype Phase =
    | Reserved      // the flow is reserved on its own node
    | PeerReserved  // and, for a stream, at the peer as well
    | Targeted      // the destination policy was obtained, was not needed, or could not be obtained
    | Collected     // the references of the source were read
    | Asking        // the references of this node meet the rules, their owners are asked for consent
    | LocalPassed   // the references of this node passed, there are others
    | Checking      // `pending` nodes have not read their policies yet, those of `asking` wait for consents
    | Granted       // the grant is in the flow map
    | Reporting     // the grant was taken out of the flow map by a report
    | Sending       // the references of the source were read again, to be sent to the peer
    | Undelivered   // the peer could not be reached: the report failed, and nothing was released
    | Delivered     // the peer recorded them
    | Closing       // the flow is recorded everywhere, the own reservation is still held
    | Released
    | Refused       // denied, the own reservation is still held
    | Aborted
    | Leaked        // the request returned without releasing anything

  /** One `IoRequest` and its `IoReport`. `hold` says that it holds a reservation at the peer. */
  datatype Op = Op(
    node: NodeId,
    source: Resource,
    destination: Resource,
    phase: Phase,
    hold: bool,
    policy: Option<Policy>,
    refs: References,
    pending: set<NodeId>,
    asking: map<NodeId, set<Resource>>,
    sent: References)
  {
    predicate Live() {
      phase != Released && phase != Aborted
    }

    function Source(): LocalizedResource {
      LocalizedResource(node, source)
    }

    function Own(): LocalizedResource {
      LocalizedResource(node, destination)
    }

    /** Where the data goes: the peer's end of a stream, or the destination itself. */
    function Target(resolve: Resolver): LocalizedResource {
      IntoLocalized(resolve, destination, node)
    }
  }

  type OpId = nat

  datatype State = State(nodes: map<NodeId, Node>, ops: map<OpId, Op>, history: seq<Provenance.Flow>)

  // ---------------------------------------------------------------- what a state says of one resource

  /** The source a resource is reserved for as a destination, if it is. */
  function Held(s: State, x: LocalizedResource): Option<Resource> {
    if x.nodeId in s.nodes && x.resource in s.nodes[x.nodeId].flows then
      Some(s.nodes[x.nodeId].flows[x.resource])
    else None
  }

  function ProvOf(s: State, x: LocalizedResource): References {
    if x.nodeId in s.nodes then Provenance.GetProv(x.nodeId, s.nodes[x.nodeId].prov, x.resource)
    else Provenance.InitProvenance(x.nodeId, x.resource)
  }

  function PolicyOf(s: State, x: LocalizedResource): Policy {
    if x.nodeId in s.nodes then Compliance.Lookup(s.nodes[x.nodeId].policies, x.resource)
    else Compliance.DEFAULT_POLICY
  }

  function RemoteNodes(refs: References, node: NodeId): set<NodeId> {
    set x | x in refs && x.nodeId != node :: x.nodeId
  }

  // ---------------------------------------------------------------- actions

  datatype Action =
    | Enrol(node: NodeId, pid: int, descriptor: int, startTime: nat, exePath: string, fd: Fd)
    | Request(id: OpId, node: NodeId, pid: int, descriptor: int, output: bool)
    | ReservePeer(id: OpId)
    | PeerPolicy(id: OpId)
    | NoPeerPolicy(id: OpId)
    | Collect(id: OpId)
    | CheckLocal(id: OpId)
    | ConsentLocal(id: OpId, consenting: set<Resource>)
    | ResolvePolicy(id: OpId)
    | CheckRemote(id: OpId, node: NodeId)
    | ConsentRemote(id: OpId, node: NodeId, consenting: set<Resource>)
    | RemoteFailure(id: OpId)
    | Report(id: OpId)
    | ReadSource(id: OpId)
    | Record(id: OpId)
    | Deliver(id: OpId)
    | DeliveryFailure(id: OpId)
    | ReleasePeer(id: OpId)
    | Release(id: OpId)
    | Operate(node: NodeId, update: Compliance.Update)

  function PutFlows(s: State, n: NodeId, flows: Sequencer.Flows): State
    requires n in s.nodes
  {
    s.(nodes := s.nodes[n := s.nodes[n].(flows := flows)])
  }

  function PutProv(s: State, n: NodeId, prov: Provenance.Store): State
    requires n in s.nodes
  {
    s.(nodes := s.nodes[n := s.nodes[n].(prov := prov)])
  }

  function PutOp(s: State, id: OpId, op: Op): State {
    s.(ops := s.ops[id := op])
  }

  predicate In(s: State, id: OpId, phase: Phase) {
    id in s.ops && s.ops[id].phase == phase && s.ops[id].node in s.nodes
  }

  function DoEnrol(s: State, n: NodeId, key: (int, int), pair: (Resource, Resource)): State {
    if n in s.nodes then
      s.(nodes := s.nodes[n := s.nodes[n].(enrolled := s.nodes[n].enrolled[key := pair])])
    else s
  }

  /** The flow is reserved on its own node; without a reservation the request fails and leaves nothing behind. */
  function DoRequest(s: State, id: OpId, n: NodeId, key: (int, int), output: bool): State {
    if id !in s.ops && n in s.nodes && key in s.nodes[n].enrolled then
      var pair := s.nodes[n].enrolled[key];
      var source, destination := if output then pair.0 else pair.1, if output then pair.1 else pair.0;
      if Sequencer.MayReserve(s.nodes[n].flows, source, destination) then
        PutOp(PutFlows(s, n, s.nodes[n].flows[destination := source]), id,
              Op(n, source, destination, Reserved, false, None, {}, {}, map[], {}))
      else s
    else s
  }

  /** The peer reserves its end of the stream, with `Null` standing for the remote source. */
  function DoReservePeer(resolve: Resolver, s: State, id: OpId): State {
    if In(s, id, Reserved) && s.ops[id].destination.IsStream() then
      var op, target := s.ops[id], s.ops[id].Target(resolve);
      if target.nodeId in s.nodes && Sequencer.MayReserve(s.nodes[target.nodeId].flows, Null, target.resource) then
        PutOp(PutFlows(s, target.nodeId, s.nodes[target.nodeId].flows[target.resource := Null]), id,
              op.(phase := PeerReserved, hold := true))
      else s
    else s
  }

  function DoPeerPolicy(resolve: Resolver, s: State, id: OpId): State {
    if In(s, id, PeerReserved) then
      PutOp(s, id, s.ops[id].(phase := Targeted, policy := Some(PolicyOf(s, s.ops[id].Target(resolve)))))
    else s
  }

  /** Nothing to fetch for a file or a process; for a stream, the request to the peer failed and the error is
      dropped. */
  function DoNoPeerPolicy(s: State, id: OpId): State {
    if In(s, id, Reserved) then PutOp(s, id, s.ops[id].(phase := Targeted)) else s
  }

  function DoCollect(s: State, id: OpId): State {
    if In(s, id, Targeted) then
      PutOp(s, id, s.ops[id].(phase := Collected, refs := ProvOf(s, s.ops[id].Source())))
    else s
  }

  /** Whether the references of node `n` meet the rules, by the policies as they are now. */
  predicate RulesAt(resolve: Resolver, s: State, op: Op, n: NodeId) {
    && n in s.nodes
    && Compliance.RulesGrant(s.nodes[n].policies, n, Provenance.RefsAt(op.refs, n), op.Target(resolve), op.policy)
  }

  /** The references of node `n` whose owners must consent, by the policies as they are now. */
  function AskedAt(s: State, op: Op, n: NodeId): set<Resource> {
    if n in s.nodes then Compliance.Asked(s.nodes[n].policies, Provenance.RefsAt(op.refs, n)) else {}
  }

  function AfterLocal(op: Op, passes: bool, asked: set<Resource>): Op {
    if passes then op.(phase := Asking, asking := map[op.node := asked]) else op.(phase := Refused)
  }

  /** The policies of this node are read. */
  function DoCheckLocal(resolve: Resolver, s: State, id: OpId): State {
    if In(s, id, Collected) then
      var op := s.ops[id];
      PutOp(s, id, AfterLocal(op, RulesAt(resolve, s, op, op.node), AskedAt(s, op, op.node)))
    else s
  }

  function Awaited(op: Op, n: NodeId): set<Resource> {
    if n in op.asking then op.asking[n] else {}
  }

  function AfterLocalConsent(op: Op, consents: bool): Op {
    if !consents then op.(phase := Refused)
    else op.(asking := map[], phase := if RemoteNodes(op.refs, op.node) == {} then Granted else LocalPassed)
  }

  /** The owners on this node answered. */
  function DoConsentLocal(s: State, id: OpId, consenting: set<Resource>): State {
    if In(s, id, Asking) then
      PutOp(s, id, AfterLocalConsent(s.ops[id], Awaited(s.ops[id], s.ops[id].node) <= consenting))
    else s
  }

  /** The policy to send along: the peer's, or the own one of a file or a process. */
  function AfterResolve(op: Op, own: Policy): Op {
    var pending := RemoteNodes(op.refs, op.node);
    if op.policy.Some? then op.(phase := Checking, pending := pending)
    else if !op.destination.IsStream() then op.(phase := Checking, pending := pending, policy := Some(own))
    else op.(phase := Leaked)
  }

  function DoResolvePolicy(s: State, id: OpId): State {
    if In(s, id, LocalPassed) then
      PutOp(s, id, AfterResolve(s.ops[id], PolicyOf(s, s.ops[id].Own())))
    else s
  }

  function AfterRemote(op: Op, n: NodeId, passes: bool, asked: set<Resource>): Op {
    if passes then op.(pending := op.pending - {n}, asking := op.asking[n := asked]) else op.(phase := Refused)
  }

  /** The policies of another node are read. */
  function DoCheckRemote(resolve: Resolver, s: State, id: OpId, n: NodeId): State {
    if In(s, id, Checking) && n in s.ops[id].pending then
      PutOp(s, id, AfterRemote(s.ops[id], n, RulesAt(resolve, s, s.ops[id], n), AskedAt(s, s.ops[id], n)))
    else s
  }

  function AfterRemoteConsent(op: Op, n: NodeId, consents: bool): Op {
    var asking := op.asking - {n};
    if !consents then op.(phase := Refused)
    else op.(asking := asking, phase := if op.pending == {} && asking == map[] then Granted else Checking)
  }

  /** The owners on another node answered. */
  function DoConsentRemote(s: State, id: OpId, n: NodeId, consenting: set<Resource>): State {
    if In(s, id, Checking) && n in s.ops[id].asking then
      PutOp(s, id, AfterRemoteConsent(s.ops[id], n, Awaited(s.ops[id], n) <= consenting))
    else s
  }

  /** A node could not be reached. */
  function DoRemoteFailure(s: State, id: OpId): State {
    if In(s, id, Checking) then PutOp(s, id, s.ops[id].(phase := Refused)) else s
  }

  function DoReport(s: State, id: OpId): State {
    if In(s, id, Granted) then PutOp(s, id, s.ops[id].(phase := Reporting)) else s
  }

  function DoReadSource(resolve: Resolver, s: State, id: OpId): State {
    if In(s, id, Reporting) && PeerStream(resolve, s.ops[id].destination).Some? then
      PutOp(s, id, s.ops[id].(phase := Sending, sent := ProvOf(s, s.ops[id].Source())))
    else s
  }

  /** The flow is recorded on its own node. */
  function DoRecord(resolve: Resolver, s: State, id: OpId): State {
    if In(s, id, Reporting) && PeerStream(resolve, s.ops[id].destination).None? then
      var op := s.ops[id];
      var prov := Provenance.UpdateRaw(op.node, s.nodes[op.node].prov, ProvOf(s, op.Source()), op.destination);
      PutOp(PutProv(s, op.node, prov), id, op.(phase := Closing))
        .(history := s.history + [Provenance.Flow(op.Source(), op.Own())])
    else s
  }

  /** The flow is recorded at the peer. */
  function DoDeliver(resolve: Resolver, s: State, id: OpId): State {
    if In(s, id, Sending) && s.ops[id].Target(resolve).nodeId in s.nodes then
      var op, target := s.ops[id], s.ops[id].Target(resolve);
      var prov := Provenance.UpdateRaw(target.nodeId, s.nodes[target.nodeId].prov, op.sent, target.resource);
      PutOp(PutProv(s, target.nodeId, prov), id, op.(phase := Delivered))
        .(history := s.history + [Provenance.Flow(op.Source(), target)])
    else s
  }

  /** The peer could not be reached; the error ends the report. */
  function DoDeliveryFailure(s: State, id: OpId): State {
    if In(s, id, Sending) then PutOp(s, id, s.ops[id].(phase := Undelivered)) else s
  }

  function DoReleasePeer(resolve: Resolver, s: State, id: OpId): State {
    if In(s, id, Delivered) && s.ops[id].Target(resolve).nodeId in s.nodes then
      var op, target := s.ops[id], s.ops[id].Target(resolve);
      PutOp(PutFlows(s, target.nodeId, s.nodes[target.nodeId].flows - {target.resource}), id,
            op.(phase := Closing, hold := false))
    else s
  }

  /** A reported or a denied flow gives up its own reservation, and only that one. */
  function DoRelease(s: State, id: OpId): State {
    if In(s, id, Closing) || In(s, id, Refused) then
      var op := s.ops[id];
      PutOp(PutFlows(s, op.node, s.nodes[op.node].flows - {op.destination}), id,
            op.(phase := if op.phase == Closing then Released else Aborted))
    else s
  }

  function DoOperate(s: State, n: NodeId, update: Compliance.Update): State {
    if n in s.nodes then
      s.(nodes := s.nodes[n := s.nodes[n].(policies := Compliance.Apply(s.nodes[n].policies, update))])
    else s
  }

  function Next(resolve: Resolver, s: State, a: Action): State {
    match a
    case Enrol(n, pid, descriptor, startTime, exePath, fd) =>
      DoEnrol(s, n, (pid, descriptor), (Process(pid, startTime, exePath), Descriptor(fd)))
    case Request(id, n, pid, descriptor, output) => DoRequest(s, id, n, (pid, descriptor), output)
    case ReservePeer(id) => DoReservePeer(resolve, s, id)
    case PeerPolicy(id) => DoPeerPolicy(resolve, s, id)
    case NoPeerPolicy(id) => DoNoPeerPolicy(s, id)
    case Collect(id) => DoCollect(s, id)
    case CheckLocal(id) => DoCheckLocal(resolve, s, id)
    case ConsentLocal(id, consenting) => DoConsentLocal(s, id, consenting)
    case ResolvePolicy(id) => DoResolvePolicy(s, id)
    case CheckRemote(id, n) => DoCheckRemote(resolve, s, id, n)
    case ConsentRemote(id, n, consenting) => DoConsentRemote(s, id, n, consenting)
    case RemoteFailure(id) => DoRemoteFailure(s, id)
    case Report(id) => DoReport(s, id)
    case ReadSource(id) => DoReadSource(resolve, s, id)
    case Record(id) => DoRecord(resolve, s, id)
    case Deliver(id) => DoDeliver(resolve, s, id)
    case DeliveryFailure(id) => DoDeliveryFailure(s, id)
    case ReleasePeer(id) => DoReleasePeer(resolve, s, id)
    case Release(id) => DoRelease(s, id)
    case Operate(n, update) => DoOperate(s, n, update)
  }

  /** The actions that change nothing but the record of one request. */
  predicate Private(a: Action) {
    a.PeerPolicy? || a.NoPeerPolicy? || a.Collect? || a.CheckLocal? || a.ConsentLocal? || a.ResolvePolicy?
    || a.CheckRemote? || a.ConsentRemote? || a.RemoteFailure? || a.Report? || a.ReadSource? || a.DeliveryFailure?
  }

  /** The actions that follow an `IoReport`. */
  predicate Reports(a: Action) {
    a.Report? || a.ReadSource? || a.Record? || a.Deliver? || a.DeliveryFailure? || a.ReleasePeer? || a.Release?
  }

  function Exec(resolve: Resolver, s: State, actions: seq<Action>): State
    decreases |actions|
  {
    if actions == [] then s
    else Exec(resolve, Next(resolve, s, actions[0]), actions[1..])
  }

  lemma ExecOne(resolve: Resolver, s: State, a: Action)
    ensures Exec(resolve, s, [a]) == Next(resolve, s, a)
  {
    assert Exec(resolve, Next(resolve, s, a), [a][1..]) == Next(resolve, s, a);
  }

  lemma {:induction false} ExecInTurn(resolve: Resolver, s: State, first: seq<Action>, rest: seq<Action>)
    ensures Exec(resolve, s, first + rest) == Exec(resolve, Exec(resolve, s, first), rest)
    decreases |first|
  {
    if first == [] {
      assert first + rest == rest;
    } else {
      assert (first + rest)[1..] == first[1..] + rest;
      ExecInTurn(resolve, Next(resolve, s, first[0]), first[1..], rest);
    }
  }

  /** Nothing enrolled, reserved or recorded; the policies are whatever the operators chose. */
  predicate Initial(s: State) {
    && s.ops == map[]
    && s.history == []
    && forall n :: n in s.nodes ==>
         s.nodes[n].enrolled == map[] && s.nodes[n].flows == map[] && s.nodes[n].prov == map[]
  }

  /** The peer socket of an enrolled stream parses, and names another node than the one it is enrolled on. */
  predicate PeerElsewhere(resolve: Resolver, n: NodeId, fd: Fd) {
    fd.Stream? ==> resolve(fd.peerSocket).Some? && resolve(fd.peerSocket).value != n
  }

  predicate Admissible(resolve: Resolver, actions: seq<Action>) {
    forall i :: 0 <= i < |actions| && actions[i].Enrol? ==> PeerElsewhere(resolve, actions[i].node, actions[i].fd)
  }
}

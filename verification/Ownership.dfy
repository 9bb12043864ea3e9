/**
 Who holds which reservation: in every reachable state each entry of a node's
 reservation table belongs to exactly one request, and each request holds what
 its phase says.
 */
module Ownership {
  import opened Wrappers
  import opened Naming
  import opened Protocol

  /** Every action on the streams of a node concerns another node. */
  ghost predicate EnrolledShape(resolve: Resolver, s: State) {
    forall n, key :: n in s.nodes && key in s.nodes[n].enrolled ==>
      var pair := s.nodes[n].enrolled[key];
      pair.0.Process? && pair.1.Descriptor? && PeerElsewhere(resolve, n, pair.1.fd)
  }

  ghost predicate Paired(source: Resource, destination: Resource) {
    (source.Process? && destination.Descriptor?) || (source.Descriptor? && destination.Process?)
  }

  /** The local references have met the rules, and nothing was given up yet. */
  predicate Passed(phase: Phase) {
    || phase.Asking? || phase.LocalPassed? || phase.Checking? || phase.Granted? || phase.Reporting? || phase.Sending?
    || phase.Undelivered? || phase.Delivered?
  }

  /** What the phase of a request says of its fields; a grant to a stream holds the peer's end. */
  ghost predicate PhaseShape(op: Op) {
    && (op.hold ==> op.destination.IsStream())
    && (op.phase.Reserved? ==> op.policy.None?)
    && (op.phase.Reserved? || op.phase.Closing? || op.phase.Released? ==> !op.hold)
    && (op.phase.PeerReserved? ==> op.hold)
    && (op.phase.Targeted? || op.phase.Collected? || op.phase.Asking? || op.phase.LocalPassed? ==>
          (op.policy.Some? <==> op.hold))
    && (op.phase.Checking? ==> op.policy.Some?)
    && (Passed(op.phase) ==> (op.hold <==> op.destination.IsStream()))
    && (op.phase.Sending? || op.phase.Undelivered? || op.phase.Delivered? ==> op.destination.IsStream())
    && (op.phase.Asking? ==> op.asking.Keys == {op.node})
    && (op.asking != map[] ==> op.phase.Asking? || op.phase.Checking? || op.phase.Refused? || op.phase.Aborted?)
    && (op.phase.Checking? ==> op.pending !! op.asking.Keys)
    && !op.phase.Leaked?
  }

  ghost predicate OpShape(resolve: Resolver, nodes: set<NodeId>, op: Op) {
    && op.node in nodes
    && Paired(op.source, op.destination)
    && (op.destination.Descriptor? ==> PeerElsewhere(resolve, op.node, op.destination.fd))
    && (op.hold ==> op.Target(resolve).nodeId in nodes)
    && PhaseShape(op)
  }

  ghost predicate Shape(resolve: Resolver, s: State) {
    && EnrolledShape(resolve, s)
    && forall id :: id in s.ops ==> OpShape(resolve, s.nodes.Keys, s.ops[id])
  }

  // ---------------------------------------------------------------- shape is kept

  lemma OneOpShape(resolve: Resolver, s: State, s': State, id: OpId)
    requires Shape(resolve, s) && id in s'.ops
    requires s'.nodes.Keys == s.nodes.Keys && s'.ops == s.ops[id := s'.ops[id]]
    requires forall n :: n in s.nodes ==> s'.nodes[n].enrolled == s.nodes[n].enrolled
    requires OpShape(resolve, s.nodes.Keys, s'.ops[id])
    ensures Shape(resolve, s')
  {
  }

  lemma PutOpShape(resolve: Resolver, s: State, id: OpId, op: Op)
    requires Shape(resolve, s) && OpShape(resolve, s.nodes.Keys, op)
    ensures Shape(resolve, PutOp(s, id, op))
  {
    OneOpShape(resolve, s, PutOp(s, id, op), id);
  }

  lemma RequestShape(resolve: Resolver, s: State, id: OpId, n: NodeId, key: (int, int), output: bool)
    requires Shape(resolve, s)
    ensures Shape(resolve, DoRequest(s, id, n, key, output))
  {
    var s' := DoRequest(s, id, n, key, output);
    if s' != s {
      OneOpShape(resolve, s, s', id);
    }
  }

  lemma ReservePeerShape(resolve: Resolver, s: State, id: OpId)
    requires Shape(resolve, s)
    ensures Shape(resolve, DoReservePeer(resolve, s, id))
  {
    if DoReservePeer(resolve, s, id) != s { OneOpShape(resolve, s, DoReservePeer(resolve, s, id), id); }
  }

  lemma ReleasePeerShape(resolve: Resolver, s: State, id: OpId)
    requires Shape(resolve, s)
    ensures Shape(resolve, DoReleasePeer(resolve, s, id))
  {
    if DoReleasePeer(resolve, s, id) != s { OneOpShape(resolve, s, DoReleasePeer(resolve, s, id), id); }
  }

  lemma PolicyShape(resolve: Resolver, s: State, id: OpId)
    requires Shape(resolve, s)
    ensures Shape(resolve, DoPeerPolicy(resolve, s, id))
    ensures Shape(resolve, DoNoPeerPolicy(s, id))
    ensures Shape(resolve, DoResolvePolicy(s, id))
  {
    if In(s, id, PeerReserved) { PutOpShape(resolve, s, id, DoPeerPolicy(resolve, s, id).ops[id]); }
    if In(s, id, Reserved) { PutOpShape(resolve, s, id, DoNoPeerPolicy(s, id).ops[id]); }
    if In(s, id, LocalPassed) { PutOpShape(resolve, s, id, DoResolvePolicy(s, id).ops[id]); }
  }

  /** Without the peer's policy no other node is checked against, so nothing passes without the peer's reservation. */
  lemma CheckLocalShape(resolve: Resolver, s: State, id: OpId)
    requires Shape(resolve, s)
    ensures Shape(resolve, DoCheckLocal(resolve, s, id))
  {
    if In(s, id, Collected) {
      var op := s.ops[id];
      assert op.destination.IsStream() ==> op.Target(resolve).nodeId != op.node;
      PutOpShape(resolve, s, id, DoCheckLocal(resolve, s, id).ops[id]);
    }
  }

  lemma ConsentLocalShape(resolve: Resolver, s: State, id: OpId, consenting: set<Resource>)
    requires Shape(resolve, s)
    ensures Shape(resolve, DoConsentLocal(s, id, consenting))
  {
    if In(s, id, Asking) { PutOpShape(resolve, s, id, DoConsentLocal(s, id, consenting).ops[id]); }
  }

  lemma AfterRemoteShape(resolve: Resolver, nodes: set<NodeId>, op: Op, n: NodeId, passes: bool, asked: set<Resource>)
    requires OpShape(resolve, nodes, op) && op.phase.Checking?
    ensures OpShape(resolve, nodes, AfterRemote(op, n, passes, asked))
    ensures OpShape(resolve, nodes, AfterRemoteConsent(op, n, passes))
  {
  }

  lemma CheckRemoteShape(resolve: Resolver, s: State, id: OpId, n: NodeId, consenting: set<Resource>)
    requires Shape(resolve, s)
    ensures Shape(resolve, DoCheckRemote(resolve, s, id, n))
    ensures Shape(resolve, DoConsentRemote(s, id, n, consenting))
  {
    if In(s, id, Checking) {
      var op := s.ops[id];
      var passes, asked := RulesAt(resolve, s, op, n), AskedAt(s, op, n);
      AfterRemoteShape(resolve, s.nodes.Keys, op, n, passes, asked);
      PutOpShape(resolve, s, id, AfterRemote(op, n, passes, asked));
      var consents := Awaited(op, n) <= consenting;
      AfterRemoteShape(resolve, s.nodes.Keys, op, n, consents, asked);
      PutOpShape(resolve, s, id, AfterRemoteConsent(op, n, consents));
    }
  }

  lemma CheckShape(resolve: Resolver, s: State, id: OpId)
    requires Shape(resolve, s)
    ensures Shape(resolve, DoCollect(s, id))
    ensures Shape(resolve, DoRemoteFailure(s, id))
  {
    if In(s, id, Targeted) { PutOpShape(resolve, s, id, DoCollect(s, id).ops[id]); }
    if In(s, id, Checking) { PutOpShape(resolve, s, id, DoRemoteFailure(s, id).ops[id]); }
  }

  lemma ReportShape(resolve: Resolver, s: State, id: OpId)
    requires Shape(resolve, s)
    ensures Shape(resolve, DoReport(s, id))
    ensures Shape(resolve, DoReadSource(resolve, s, id))
    ensures Shape(resolve, DoDeliveryFailure(s, id))
  {
    if In(s, id, Sending) { PutOpShape(resolve, s, id, DoDeliveryFailure(s, id).ops[id]); }
    if In(s, id, Granted) { PutOpShape(resolve, s, id, DoReport(s, id).ops[id]); }
    if DoReadSource(resolve, s, id) != s { PutOpShape(resolve, s, id, DoReadSource(resolve, s, id).ops[id]); }
  }

  lemma ReleaseShape(resolve: Resolver, s: State, id: OpId)
    requires Shape(resolve, s)
    ensures Shape(resolve, DoRelease(s, id))
  {
    if DoRelease(s, id) != s { OneOpShape(resolve, s, DoRelease(s, id), id); }
  }

  lemma RecordShape(resolve: Resolver, s: State, id: OpId)
    requires Shape(resolve, s)
    ensures Shape(resolve, DoRecord(resolve, s, id))
  {
    if DoRecord(resolve, s, id) != s { OneOpShape(resolve, s, DoRecord(resolve, s, id), id); }
  }

  lemma DeliverShape(resolve: Resolver, s: State, id: OpId)
    requires Shape(resolve, s)
    ensures Shape(resolve, DoDeliver(resolve, s, id))
  {
    if DoDeliver(resolve, s, id) != s { OneOpShape(resolve, s, DoDeliver(resolve, s, id), id); }
  }

  lemma ReportKeepsShape(resolve: Resolver, s: State, a: Action)
    requires Shape(resolve, s) && Reports(a)
    ensures Shape(resolve, Next(resolve, s, a))
  {
    ReportShape(resolve, s, a.id);
    RecordShape(resolve, s, a.id);
    DeliverShape(resolve, s, a.id);
    ReleasePeerShape(resolve, s, a.id);
    ReleaseShape(resolve, s, a.id);
  }

  lemma ShapeIsKept(resolve: Resolver, s: State, a: Action)
    requires Shape(resolve, s)
    requires a.Enrol? ==> PeerElsewhere(resolve, a.node, a.fd)
    ensures Shape(resolve, Next(resolve, s, a))
  {
    if Reports(a) {
      ReportKeepsShape(resolve, s, a);
    } else {
      match a
      case Enrol(_, _, _, _, _, _) =>
      case Operate(_, _) =>
      case Request(id, n, pid, descriptor, output) => RequestShape(resolve, s, id, n, (pid, descriptor), output);
      case ReservePeer(id) => ReservePeerShape(resolve, s, id);
      case PeerPolicy(id) => PolicyShape(resolve, s, id);
      case NoPeerPolicy(id) => PolicyShape(resolve, s, id);
      case ResolvePolicy(id) => PolicyShape(resolve, s, id);
      case CheckLocal(id) => CheckLocalShape(resolve, s, id);
      case ConsentLocal(id, consenting) => ConsentLocalShape(resolve, s, id, consenting);
      case Collect(id) => CheckShape(resolve, s, id);
      case CheckRemote(id, n) => CheckRemoteShape(resolve, s, id, n, {});
      case ConsentRemote(id, n, consenting) => CheckRemoteShape(resolve, s, id, n, consenting);
      case RemoteFailure(id) => CheckShape(resolve, s, id);
    }
  }

  // ---------------------------------------------------------------- reservations and their owners

  /** Request `id` owns the reservation of `x` for the source `v`: its own, or the one it holds at the peer. */
  ghost predicate Claims(resolve: Resolver, s: State, id: OpId, x: LocalizedResource, v: Resource) {
    && id in s.ops
    && var op := s.ops[id];
       || (op.Live() && x == op.Own() && v == op.source)
       || (op.hold && x == op.Target(resolve) && v == Null)
  }

  ghost predicate ClaimsAreHeld(resolve: Resolver, s: State) {
    forall id, x, v :: Claims(resolve, s, id, x, v) ==> Held(s, x) == Some(v)
  }

  ghost predicate OneClaimEach(resolve: Resolver, s: State) {
    forall i, j, x, v :: Claims(resolve, s, i, x, v) && Claims(resolve, s, j, x, v) ==> i == j
  }

  ghost predicate HeldIsClaimed(resolve: Resolver, s: State) {
    forall x: LocalizedResource :: Held(s, x).Some? ==> exists id :: Claims(resolve, s, id, x, Held(s, x).value)
  }

  /** On every node, no resource is reserved as a source and as a destination. */
  ghost predicate NoChains(s: State) {
    forall x: LocalizedResource :: Held(s, x).Some? ==> Held(s, LocalizedResource(x.nodeId, Held(s, x).value)).None?
  }

  ghost predicate Locks(resolve: Resolver, s: State) {
    ClaimsAreHeld(resolve, s) && OneClaimEach(resolve, s) && HeldIsClaimed(resolve, s) && NoChains(s)
  }

  lemma UnmovedKeepsLocks(resolve: Resolver, s: State, s': State)
    requires Locks(resolve, s)
    requires forall x :: Held(s', x) == Held(s, x)
    requires forall id, x, v :: Claims(resolve, s', id, x, v) <==> Claims(resolve, s, id, x, v)
    ensures Locks(resolve, s')
  {
    forall x | Held(s', x).Some?
      ensures exists id :: Claims(resolve, s', id, x, Held(s', x).value)
    {
      var id :| Claims(resolve, s, id, x, Held(s, x).value);
      assert Claims(resolve, s', id, x, Held(s', x).value);
    }
  }

  lemma TakeKeepsLocks(resolve: Resolver, s: State, s': State, id: OpId, x: LocalizedResource, v: Resource)
    requires Locks(resolve, s)
    requires Held(s, x).None? && Held(s, LocalizedResource(x.nodeId, v)).None? && v != x.resource
    requires forall y: LocalizedResource :: y.nodeId == x.nodeId ==> Held(s, y) != Some(x.resource)
    requires forall y :: Held(s', y) == if y == x then Some(v) else Held(s, y)
    requires forall i, y, w :: Claims(resolve, s', i, y, w)
                          <==> Claims(resolve, s, i, y, w) || (i == id && y == x && w == v)
    ensures Locks(resolve, s')
  {
    forall y | Held(s', y).Some?
      ensures exists i :: Claims(resolve, s', i, y, Held(s', y).value)
    {
      if y == x {
        assert Claims(resolve, s', id, x, v);
      } else {
        var i :| Claims(resolve, s, i, y, Held(s, y).value);
        assert Claims(resolve, s', i, y, Held(s', y).value);
      }
    }
  }

  lemma FreeKeepsLocks(resolve: Resolver, s: State, s': State, id: OpId, x: LocalizedResource, v: Resource)
    requires Locks(resolve, s) && Claims(resolve, s, id, x, v)
    requires forall y :: Held(s', y) == if y == x then None else Held(s, y)
    requires forall i, y, w :: Claims(resolve, s', i, y, w)
                          <==> Claims(resolve, s, i, y, w) && !(i == id && y == x && w == v)
    ensures Locks(resolve, s')
  {
    forall i, y, w | Claims(resolve, s', i, y, w)
      ensures Held(s', y) == Some(w)
    {
      assert Claims(resolve, s, i, y, w);
    }
    forall y | Held(s', y).Some?
      ensures exists i :: Claims(resolve, s', i, y, Held(s', y).value)
    {
      var i :| Claims(resolve, s, i, y, Held(s, y).value);
      assert Claims(resolve, s', i, y, Held(s', y).value);
    }
  }

  // ---------------------------------------------------------------- the four actions that move reservations

  lemma RequestKeepsLocks(resolve: Resolver, s: State, id: OpId, n: NodeId, key: (int, int), output: bool)
    requires Shape(resolve, s) && Locks(resolve, s)
    ensures Locks(resolve, DoRequest(s, id, n, key, output))
  {
    var s' := DoRequest(s, id, n, key, output);
    if s' != s {
      var op := s'.ops[id];
      TakeKeepsLocks(resolve, s, s', id, op.Own(), op.source);
    }
  }

  lemma ReservePeerClaims(resolve: Resolver, s: State, id: OpId)
    requires Shape(resolve, s) && DoReservePeer(resolve, s, id) != s
    ensures forall i, x, v :: Claims(resolve, DoReservePeer(resolve, s, id), i, x, v)
                         <==> Claims(resolve, s, i, x, v) || (i == id && x == s.ops[id].Target(resolve) && v == Null)
  {
  }

  lemma ReservePeerKeepsLocks(resolve: Resolver, s: State, id: OpId)
    requires Shape(resolve, s) && Locks(resolve, s)
    ensures Locks(resolve, DoReservePeer(resolve, s, id))
  {
    var s' := DoReservePeer(resolve, s, id);
    if s' != s {
      var target := s.ops[id].Target(resolve);
      ReservePeerClaims(resolve, s, id);
      TakeKeepsLocks(resolve, s, s', id, target, Null);
    }
  }

  lemma ReleasePeerKeepsLocks(resolve: Resolver, s: State, id: OpId)
    requires Shape(resolve, s) && Locks(resolve, s)
    ensures Locks(resolve, DoReleasePeer(resolve, s, id))
    ensures var s' := DoReleasePeer(resolve, s, id);
            forall i, x, v :: Claims(resolve, s', i, x, v) <==>
              && Claims(resolve, s, i, x, v)
              && !(s' != s && i == id && x == s.ops[id].Target(resolve) && v == Null)
  {
    var s' := DoReleasePeer(resolve, s, id);
    if s' != s {
      FreeKeepsLocks(resolve, s, s', id, s.ops[id].Target(resolve), Null);
    }
  }

  lemma ReleaseKeepsLocks(resolve: Resolver, s: State, id: OpId)
    requires Shape(resolve, s) && Locks(resolve, s)
    ensures Locks(resolve, DoRelease(s, id))
    ensures var s' := DoRelease(s, id);
            forall i, x, v :: Claims(resolve, s', i, x, v) <==>
              && Claims(resolve, s, i, x, v)
              && !(s' != s && i == id && x == s.ops[id].Own() && v == s.ops[id].source)
  {
    var s' := DoRelease(s, id);
    if s' != s {
      FreeKeepsLocks(resolve, s, s', id, s.ops[id].Own(), s.ops[id].source);
    }
  }

  // ---------------------------------------------------------------- all actions

  predicate MovesReservations(a: Action) {
    a.Request? || a.ReservePeer? || a.ReleasePeer? || a.Release?
  }

  ghost predicate SameOwner(op: Op, op': Op) {
    && op'.node == op.node && op'.source == op.source && op'.destination == op.destination
    && op'.hold == op.hold && op'.Live() == op.Live()
  }

  ghost predicate Quiet(s: State, s': State) {
    && (forall x :: Held(s', x) == Held(s, x))
    && s'.ops.Keys == s.ops.Keys
    && forall id :: id in s.ops ==> SameOwner(s.ops[id], s'.ops[id])
  }

  /** A private action touches no table, and no field that says who owns what. */
  ghost predicate PrivateStep(s: State, s': State, id: OpId) {
    && s'.nodes == s.nodes && s'.history == s.history
    && (s' != s ==> id in s.ops && id in s'.ops && s'.ops == s.ops[id := s'.ops[id]]
                    && SameOwner(s.ops[id], s'.ops[id]))
  }

  lemma PolicyIsPrivate(resolve: Resolver, s: State, a: Action)
    requires Shape(resolve, s) && (a.PeerPolicy? || a.NoPeerPolicy? || a.ResolvePolicy?)
    ensures PrivateStep(s, Next(resolve, s, a), a.id)
  {
  }

  lemma ReportIsPrivate(resolve: Resolver, s: State, a: Action)
    requires Shape(resolve, s) && (a.Report? || a.ReadSource? || a.DeliveryFailure?)
    ensures PrivateStep(s, Next(resolve, s, a), a.id)
  {
  }

  lemma ConsentIsPrivate(resolve: Resolver, s: State, a: Action)
    requires Shape(resolve, s) && (a.ConsentLocal? || a.ConsentRemote?)
    ensures PrivateStep(s, Next(resolve, s, a), a.id)
  {
  }

  lemma CheckIsPrivate(resolve: Resolver, s: State, a: Action)
    requires Shape(resolve, s) && (a.Collect? || a.CheckLocal? || a.CheckRemote? || a.RemoteFailure?)
    ensures PrivateStep(s, Next(resolve, s, a), a.id)
  {
  }

  lemma PrivateIsPrivate(resolve: Resolver, s: State, a: Action)
    requires Shape(resolve, s) && Private(a)
    ensures PrivateStep(s, Next(resolve, s, a), a.id)
  {
    if a.Collect? || a.CheckLocal? || a.CheckRemote? || a.RemoteFailure? {
      CheckIsPrivate(resolve, s, a);
    } else if a.ConsentLocal? || a.ConsentRemote? {
      ConsentIsPrivate(resolve, s, a);
    } else if a.Report? || a.ReadSource? || a.DeliveryFailure? {
      ReportIsPrivate(resolve, s, a);
    } else {
      PolicyIsPrivate(resolve, s, a);
    }
  }

  lemma PrivateIsQuiet(s: State, s': State, id: OpId)
    requires PrivateStep(s, s', id)
    ensures Quiet(s, s')
  {
  }

  lemma RecordIsQuiet(resolve: Resolver, s: State, id: OpId)
    requires Shape(resolve, s)
    ensures Quiet(s, DoRecord(resolve, s, id))
  {
  }

  lemma DeliverIsQuiet(resolve: Resolver, s: State, id: OpId)
    requires Shape(resolve, s)
    ensures Quiet(s, DoDeliver(resolve, s, id))
  {
  }

  lemma OperatorIsQuiet(resolve: Resolver, s: State, a: Action)
    requires a.Enrol? || a.Operate?
    ensures Quiet(s, Next(resolve, s, a))
  {
  }

  lemma OthersAreQuiet(resolve: Resolver, s: State, a: Action)
    requires Shape(resolve, s) && !MovesReservations(a)
    ensures Quiet(s, Next(resolve, s, a))
  {
    if Private(a) {
      PrivateIsPrivate(resolve, s, a);
      PrivateIsQuiet(s, Next(resolve, s, a), a.id);
    } else if a.Record? {
      RecordIsQuiet(resolve, s, a.id);
    } else if a.Deliver? {
      DeliverIsQuiet(resolve, s, a.id);
    } else {
      OperatorIsQuiet(resolve, s, a);
    }
  }

  lemma QuietKeepsLocks(resolve: Resolver, s: State, s': State)
    requires Locks(resolve, s) && Quiet(s, s')
    ensures Locks(resolve, s')
  {
    UnmovedKeepsLocks(resolve, s, s');
  }

  lemma LocksAreKept(resolve: Resolver, s: State, a: Action)
    requires Shape(resolve, s) && Locks(resolve, s)
    ensures Locks(resolve, Next(resolve, s, a))
  {
    match a
    case Request(id, n, pid, descriptor, output) => RequestKeepsLocks(resolve, s, id, n, (pid, descriptor), output);
    case ReservePeer(id) => ReservePeerKeepsLocks(resolve, s, id);
    case ReleasePeer(id) => ReleasePeerKeepsLocks(resolve, s, id);
    case Release(id) => ReleaseKeepsLocks(resolve, s, id);
    case _ =>
      OthersAreQuiet(resolve, s, a);
      QuietKeepsLocks(resolve, s, Next(resolve, s, a));
  }
}

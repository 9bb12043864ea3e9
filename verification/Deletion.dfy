/**
 The deletion cascade: once a resource is deleted on its node, no request for
 which that node has yet to read its policies is ever granted for anything derived
 from it. A request that waits for consents there has been past that moment.
 */
module Deletion {
  import opened Naming
  import opened Protocol
  import opened Ownership
  import opened Recording
  import opened Labels
  import Provenance

  /** If the request reads something derived from `x`, it has not passed the node of `x`: that node has not read
      its policies yet, or they forbade the flow. */
  ghost predicate RequestBarred(s: State, id: OpId, x: LocalizedResource) {
    id in s.ops && s.ops[id].Live() && x in ProvOf(s, s.ops[id].Source()) ==> !Cleared(s.ops[id], x.nodeId)
  }

  ghost predicate Barred(s: State, x: LocalizedResource) {
    forall id :: id in s.ops ==> RequestBarred(s, id, x)
  }

  lemma DeletedRefuses(resolve: Resolver, s: State, op: Op, n: NodeId, x: LocalizedResource)
    requires PolicyOf(s, x).IsDeleted() && !x.resource.IsStream()
    requires x in op.refs && x.nodeId == n
    ensures !RulesAt(resolve, s, op, n)
  {
    assert x.resource in Provenance.RefsAt(op.refs, n);
  }

  lemma CheckLocalBars(resolve: Resolver, s: State, id: OpId, x: LocalizedResource)
    requires Inv(resolve, s) && In(s, id, Collected)
    requires PolicyOf(s, x).IsDeleted() && !x.resource.IsStream() && x in s.ops[id].refs
    ensures !Cleared(DoCheckLocal(resolve, s, id).ops[id], x.nodeId)
  {
    var op := s.ops[id];
    if x.nodeId == op.node {
      DeletedRefuses(resolve, s, op, op.node, x);
    }
  }

  lemma ResolveBars(s: State, id: OpId, x: LocalizedResource)
    requires In(s, id, LocalPassed) && x in s.ops[id].refs && !Cleared(s.ops[id], x.nodeId)
    ensures !Cleared(DoResolvePolicy(s, id).ops[id], x.nodeId)
  {
    assert x.nodeId in RemoteNodes(s.ops[id].refs, s.ops[id].node);
  }

  lemma CheckRemoteBars(resolve: Resolver, s: State, id: OpId, n: NodeId, x: LocalizedResource)
    requires In(s, id, Checking) && n in s.ops[id].pending && !Cleared(s.ops[id], x.nodeId)
    requires PolicyOf(s, x).IsDeleted() && !x.resource.IsStream() && x in s.ops[id].refs
    ensures !Cleared(DoCheckRemote(resolve, s, id, n).ops[id], x.nodeId)
  {
    var op, passes, asked := s.ops[id], RulesAt(resolve, s, s.ops[id], n), AskedAt(s, s.ops[id], n);
    if Cleared(AfterRemote(op, n, passes, asked), x.nodeId) {
      AfterRemoteCleared(op, n, passes, asked, x.nodeId);
      DeletedRefuses(resolve, s, op, n, x);
    }
  }

  /** Owners' consents bring no request past a node. */
  lemma ConsentBars(resolve: Resolver, s: State, a: Action, x: LocalizedResource)
    requires (a.ConsentLocal? && In(s, a.id, Asking)) || (a.ConsentRemote? && In(s, a.id, Checking))
    requires x in s.ops[a.id].refs && !Cleared(s.ops[a.id], x.nodeId)
    ensures !Cleared(Next(resolve, s, a).ops[a.id], x.nodeId)
  {
    var op := s.ops[a.id];
    if a.ConsentLocal? {
      if Cleared(AfterLocalConsent(op, Awaited(op, op.node) <= a.consenting), x.nodeId) {
        ConsentLocalCleared(op, Awaited(op, op.node) <= a.consenting, x);
      }
    } else if Cleared(AfterRemoteConsent(op, a.node, Awaited(op, a.node) <= a.consenting), x.nodeId) {
      ConsentRemoteCleared(op, a.node, Awaited(op, a.node) <= a.consenting, x.nodeId);
    }
  }

  lemma PolicyBars(resolve: Resolver, s: State, a: Action, n: NodeId)
    requires Shape(resolve, s) && (a.PeerPolicy? || a.NoPeerPolicy?)
    ensures a.id in Next(resolve, s, a).ops && Cleared(Next(resolve, s, a).ops[a.id], n) ==>
              a.id in s.ops && Cleared(s.ops[a.id], n)
  {
  }

  lemma CollectBars(resolve: Resolver, s: State, a: Action, n: NodeId)
    requires Shape(resolve, s) && (a.Collect? || a.RemoteFailure?)
    ensures a.id in Next(resolve, s, a).ops && Cleared(Next(resolve, s, a).ops[a.id], n) ==>
              a.id in s.ops && Cleared(s.ops[a.id], n)
  {
  }

  lemma ReportBars(resolve: Resolver, s: State, a: Action, n: NodeId)
    requires Shape(resolve, s) && (a.Report? || a.ReadSource? || a.DeliveryFailure?)
    ensures a.id in Next(resolve, s, a).ops && Cleared(Next(resolve, s, a).ops[a.id], n) ==>
              a.id in s.ops && Cleared(s.ops[a.id], n)
  {
  }

  lemma RequestBars(resolve: Resolver, s: State, a: Action, n: NodeId)
    requires Shape(resolve, s) && (a.Request? || a.ReservePeer?)
    ensures a.id in Next(resolve, s, a).ops && Cleared(Next(resolve, s, a).ops[a.id], n) ==>
              a.id in s.ops && Cleared(s.ops[a.id], n)
  {
  }

  lemma RecordBars(resolve: Resolver, s: State, a: Action, n: NodeId)
    requires Shape(resolve, s) && (a.Record? || a.Deliver?)
    ensures a.id in Next(resolve, s, a).ops && Cleared(Next(resolve, s, a).ops[a.id], n) ==>
              a.id in s.ops && Cleared(s.ops[a.id], n)
  {
  }

  lemma ReleaseBars(resolve: Resolver, s: State, a: Action, n: NodeId)
    requires Shape(resolve, s) && (a.ReleasePeer? || a.Release?)
    ensures a.id in Next(resolve, s, a).ops && Cleared(Next(resolve, s, a).ops[a.id], n) ==>
              a.id in s.ops && Cleared(s.ops[a.id], n)
  {
  }

  /** Only an evaluation brings a request past a node. */
  lemma OthersBar(resolve: Resolver, s: State, a: Action, n: NodeId)
    requires Shape(resolve, s) && !a.Enrol? && !a.Operate?
    requires !a.CheckLocal? && !a.CheckRemote? && !a.ConsentLocal? && !a.ConsentRemote? && !a.ResolvePolicy?
    ensures a.id in Next(resolve, s, a).ops && Cleared(Next(resolve, s, a).ops[a.id], n) ==>
              a.id in s.ops && Cleared(s.ops[a.id], n)
  {
    if a.PeerPolicy? || a.NoPeerPolicy? {
      PolicyBars(resolve, s, a, n);
    } else if a.Collect? || a.RemoteFailure? {
      CollectBars(resolve, s, a, n);
    } else if a.Report? || a.ReadSource? || a.DeliveryFailure? {
      ReportBars(resolve, s, a, n);
    } else if a.Request? || a.ReservePeer? {
      RequestBars(resolve, s, a, n);
    } else if a.Record? || a.Deliver? {
      RecordBars(resolve, s, a, n);
    } else {
      ReleaseBars(resolve, s, a, n);
    }
  }

  /** The request that acts is not cleared by acting. */
  lemma ActionBars(resolve: Resolver, s: State, a: Action, id: OpId, x: LocalizedResource)
    requires Inv(resolve, s) && ActsOn(a, id) && id in Next(resolve, s, a).ops
    requires PolicyOf(s, x).IsDeleted() && !x.resource.IsStream()
    requires id in s.ops ==> !Cleared(s.ops[id], x.nodeId)
    requires id in s.ops ==> (HasRefs(s.ops[id].phase) ==> x in s.ops[id].refs)
    ensures !Cleared(Next(resolve, s, a).ops[id], x.nodeId)
  {
    if a.CheckLocal? {
      if In(s, id, Collected) { CheckLocalBars(resolve, s, id, x); }
    } else if a.ResolvePolicy? {
      if In(s, id, LocalPassed) { ResolveBars(s, id, x); }
    } else if a.CheckRemote? {
      if In(s, id, Checking) && a.node in s.ops[id].pending {
        CheckRemoteBars(resolve, s, id, a.node, x);
      }
    } else if a.ConsentLocal? {
      if In(s, id, Asking) { ConsentBars(resolve, s, a, x); }
    } else if a.ConsentRemote? {
      if In(s, id, Checking) { ConsentBars(resolve, s, a, x); }
    } else if !a.Enrol? && !a.Operate? {
      OthersBar(resolve, s, a, x.nodeId);
    }
  }

  /** A request keeps its source, and its references are those of the source if it has read them. */
  lemma SourceIsKept(resolve: Resolver, s: State, a: Action, id: OpId)
    requires Inv(resolve, s) && id in s.ops
    ensures id in Next(resolve, s, a).ops
    ensures Next(resolve, s, a).ops[id].Source() == s.ops[id].Source()
    ensures Next(resolve, s, a).ops[id].Target(resolve) == s.ops[id].Target(resolve)
    ensures Next(resolve, s, a).ops[id].Live() ==> s.ops[id].Live()
  {
    if MovesReservations(a) {
      if !ActsOn(a, id) {
        OthersUntouched(resolve, s, a, id);
      }
    } else {
      OthersAreQuiet(resolve, s, a);
    }
  }

  lemma RequestStaysBarred(resolve: Resolver, s: State, a: Action, id: OpId, x: LocalizedResource)
    requires Inv(resolve, s) && RequestBarred(s, id, x)
    requires PolicyOf(s, x).IsDeleted() && !x.resource.IsStream()
    ensures RequestBarred(Next(resolve, s, a), id, x)
  {
    var s' := Next(resolve, s, a);
    if id in s'.ops && s'.ops[id].Live() && x in ProvOf(s', s'.ops[id].Source()) {
      if id in s.ops {
        SourceIsKept(resolve, s, a, id);
        SourceIsStable(resolve, s, a, id);
      }
      if ActsOn(a, id) {
        ActionBars(resolve, s, a, id, x);
      } else {
        OthersUntouched(resolve, s, a, id);
      }
    }
  }

  /** Deleted stays deleted. */
  lemma DeletedIsKept(resolve: Resolver, s: State, a: Action, x: LocalizedResource)
    requires Shape(resolve, s) && PolicyOf(s, x).IsDeleted()
    ensures PolicyOf(Next(resolve, s, a), x) == PolicyOf(s, x)
  {
    if Private(a) {
      PrivateIsPrivate(resolve, s, a);
    }
  }

  /** A live request for something derived from `x` that is past the node of `x` and goes to `y`. */
  ghost predicate InFlight(resolve: Resolver, s: State, id: OpId, x: LocalizedResource, y: LocalizedResource) {
    && id in s.ops && s.ops[id].Live() && Cleared(s.ops[id], x.nodeId)
    && x in ProvOf(s, s.ops[id].Source())
    && y == s.ops[id].Target(resolve)
  }

  /** Whatever becomes derived from `x` is the target of a request in flight. */
  lemma DescendantsAreInFlight(resolve: Resolver, s: State, a: Action, x: LocalizedResource, y: LocalizedResource)
    requires Inv(resolve, s)
    ensures x in ProvOf(s, y) ==> x in ProvOf(Next(resolve, s, a), y)
    ensures x in ProvOf(Next(resolve, s, a), y) && x !in ProvOf(s, y) ==> exists id :: InFlight(resolve, s, id, x, y)
  {
    RecordingEffect(resolve, s, a);
    if Recorded(resolve, s, a).Some? {
      RecordedFlow(resolve, s, a);
      assert x in ProvOf(Next(resolve, s, a), y) && x !in ProvOf(s, y) ==> InFlight(resolve, s, a.id, x, y);
    }
  }

  /** After the deletion of `x` no request comes into flight. */
  lemma InFlightWasInFlight(resolve: Resolver, s: State, a: Action, id: OpId,
                            x: LocalizedResource, y: LocalizedResource)
    requires Inv(resolve, s) && PolicyOf(s, x).IsDeleted() && !x.resource.IsStream()
    requires InFlight(resolve, Next(resolve, s, a), id, x, y)
    ensures InFlight(resolve, s, id, x, y)
  {
    if RequestBarred(s, id, x) {
      RequestStaysBarred(resolve, s, a, id, x);
    } else {
      SourceIsKept(resolve, s, a, id);
    }
  }
}

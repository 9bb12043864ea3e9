/**
 The distributed check against a central one: as long as a request is under way,
 no operator changes a policy it is judged by, every consent it asks for has one
 answer and every node it asks can be reached, it is granted or denied exactly as
 one evaluation of all references against one table would, if the peer's end of a
 stream could be reserved, and denied if it could not.
 */
module Settled {
  import opened Wrappers
  import opened Naming
  import opened Protocol
  import opened Ownership
  import opened Recording
  import opened Labels
  import Provenance
  import Compliance

  /** The (source, destination) pairs for which the owner of the source consents. */
  type Consents = set<(LocalizedResource, LocalizedResource)>

  function ConsentsAt(consents: Consents, n: NodeId, target: LocalizedResource): set<Resource> {
    set c | c in consents && c.0.nodeId == n && c.1 == target :: c.0.resource
  }

  ghost predicate RulesHold(s: State, x: LocalizedResource, target: LocalizedResource) {
    || x.resource.IsStream()
    || (&& PolicyOf(s, x).deleted == Compliance.NotDeleted && PolicyOf(s, target).deleted == Compliance.NotDeleted
        && MayFlow(PolicyOf(s, x), PolicyOf(s, target)))
  }

  ghost predicate ConsentHolds(s: State, consents: Consents, x: LocalizedResource, target: LocalizedResource) {
    !x.resource.IsStream() && PolicyOf(s, x).consent ==> (x, target) in consents
  }

  /** The four rules, with the policy of each resource taken from its own node. */
  ghost predicate Passes(s: State, consents: Consents, x: LocalizedResource, target: LocalizedResource) {
    RulesHold(s, x, target) && ConsentHolds(s, consents, x, target)
  }

  /** Before the request starts anything may happen; from then on operators keep away from its target and from the
      references it has read, and its consents are those of `consents`. */
  ghost predicate SettledStep(resolve: Resolver, s: State, a: Action, consents: Consents, id: OpId) {
    id in s.ops ==>
      var op, target := s.ops[id], s.ops[id].Target(resolve);
      match a
      case Operate(n, update) =>
        LocalizedResource(n, update.resource) != target && LocalizedResource(n, update.resource) !in op.refs
      case RemoteFailure(i) => i != id
      case ConsentLocal(i, consenting) => i == id ==> consenting == ConsentsAt(consents, op.node, target)
      case ConsentRemote(i, n, consenting) => i == id ==> consenting == ConsentsAt(consents, n, target)
      case _ => true
  }

  ghost predicate SettledRun(resolve: Resolver, s: State, actions: seq<Action>, consents: Consents, id: OpId)
    decreases |actions|
  {
    actions == [] || (SettledStep(resolve, s, actions[0], consents, id)
                      && SettledRun(resolve, Next(resolve, s, actions[0]), actions[1..], consents, id))
  }

  // ---------------------------------------------------------------- what is known of a request

  /** Granted, and whatever follows a grant. */
  predicate Approved(phase: Phase) {
    || phase.Granted? || phase.Reporting? || phase.Sending? || phase.Undelivered? || phase.Delivered?
    || phase.Closing? || phase.Released?
  }

  predicate Denied(phase: Phase) {
    phase.Refused? || phase.Aborted?
  }

  /** The references of node `n` met the rules. */
  predicate RulesMet(op: Op, n: NodeId) {
    || ((op.phase.Asking? || op.phase.LocalPassed?) && n == op.node)
    || (op.phase.Checking? && n !in op.pending)
    || Approved(op.phase)
  }

  predicate Open(phase: Phase) {
    phase.Asking? || phase.Checking?
  }

  ghost predicate Clear(resolve: Resolver, s: State, op: Op, consents: Consents) {
    forall x :: x in op.refs && RulesMet(op, x.nodeId) ==>
      && RulesHold(s, x, op.Target(resolve))
      && (x.nodeId !in op.asking ==> ConsentHolds(s, consents, x, op.Target(resolve)))
  }

  ghost predicate AsksRightly(s: State, op: Op) {
    Open(op.phase) ==> forall n :: n in op.asking ==> n in s.nodes && op.asking[n] == AskedAt(s, op, n)
  }

  ghost predicate DecisionIsCentral(resolve: Resolver, s: State, op: Op, consents: Consents) {
    && (op.policy.Some? ==> op.policy.value == PolicyOf(s, op.Target(resolve)))
    && (Approved(op.phase) && op.destination.IsStream() ==> op.policy.Some?)
    && (op.phase.Checking? ==> op.pending <= RemoteNodes(op.refs, op.node))
    && Clear(resolve, s, op, consents)
    && AsksRightly(s, op)
    && (Denied(op.phase) ==>
          || (op.destination.IsStream() && op.policy.None?)
          || exists x :: x in op.refs && !Passes(s, consents, x, op.Target(resolve)))
  }

  ghost predicate Registered(s: State) {
    forall y: LocalizedResource, x: LocalizedResource ::
      y.nodeId in s.nodes && x in ProvOf(s, y) ==> x.nodeId in s.nodes
  }

  ghost predicate SettledInv(resolve: Resolver, s: State, consents: Consents, id: OpId) {
    Registered(s) && (id in s.ops ==> DecisionIsCentral(resolve, s, s.ops[id], consents))
  }

  // ---------------------------------------------------------------- one node

  /** What one node finds for its own references, in terms of the global tables. */
  lemma NodeFindsCentrally(resolve: Resolver, s: State, op: Op, n: NodeId)
    requires n in s.nodes
    requires op.policy == Some(PolicyOf(s, op.Target(resolve)))
          || (op.policy.None? && op.Target(resolve).nodeId == n)
    ensures RulesAt(resolve, s, op, n)
       <==> forall x :: x in op.refs && x.nodeId == n ==> RulesHold(s, x, op.Target(resolve))
  {
    forall x | x in op.refs && x.nodeId == n
      ensures x.resource in Provenance.RefsAt(op.refs, n)
    {
    }
    forall r | r in Provenance.RefsAt(op.refs, n)
      ensures LocalizedResource(n, r) in op.refs
    {
    }
  }

  /** And what its owners' answers mean. */
  lemma NodeAsksCentrally(resolve: Resolver, s: State, op: Op, n: NodeId, consents: Consents)
    requires n in s.nodes
    ensures AskedAt(s, op, n) <= ConsentsAt(consents, n, op.Target(resolve))
       <==> forall x :: x in op.refs && x.nodeId == n ==> ConsentHolds(s, consents, x, op.Target(resolve))
  {
    var target := op.Target(resolve);
    var consenting := ConsentsAt(consents, n, target);
    forall x: LocalizedResource | x.nodeId == n
      ensures x.resource in consenting <==> (x, target) in consents
      ensures x in op.refs <==> x.resource in Provenance.RefsAt(op.refs, n)
    {
      assert (x, target) in consents ==> x.resource in consenting;
    }
    forall r | r in AskedAt(s, op, n)
      ensures LocalizedResource(n, r) in op.refs
    {
    }
  }

  /** The answer of one node for its part of the references: the rules when it reads its policies, the consents
      later. */
  lemma NodeAnswersCentrally(resolve: Resolver, s: State, op: Op, n: NodeId, consents: Consents)
    requires n in s.nodes
    requires op.policy == Some(PolicyOf(s, op.Target(resolve)))
          || (op.policy.None? && op.Target(resolve).nodeId == n)
    ensures RulesAt(resolve, s, op, n) && AskedAt(s, op, n) <= ConsentsAt(consents, n, op.Target(resolve))
       <==> forall x :: x in op.refs && x.nodeId == n ==> Passes(s, consents, x, op.Target(resolve))
  {
    NodeFindsCentrally(resolve, s, op, n);
    NodeAsksCentrally(resolve, s, op, n, consents);
  }

  // ---------------------------------------------------------------- the four actions of an evaluation

  lemma CheckLocalIsCentral(resolve: Resolver, s: State, id: OpId, consents: Consents)
    requires In(s, id, Collected) && OpShape(resolve, s.nodes.Keys, s.ops[id])
    requires DecisionIsCentral(resolve, s, s.ops[id], consents)
    ensures DecisionIsCentral(resolve, s, DoCheckLocal(resolve, s, id).ops[id], consents)
  {
    var op, op' := s.ops[id], DoCheckLocal(resolve, s, id).ops[id];
    if op.policy.Some? || op.Target(resolve).nodeId == op.node {
      NodeFindsCentrally(resolve, s, op, op.node);
      if op'.phase.Refused? {
        var x :| x in op.refs && x.nodeId == op.node && !RulesHold(s, x, op.Target(resolve));
        assert !Passes(s, consents, x, op'.Target(resolve));
      }
    }
  }

  lemma ConsentLocalIsCentral(resolve: Resolver, s: State, id: OpId, consenting: set<Resource>, consents: Consents)
    requires In(s, id, Asking) && PhaseShape(s.ops[id]) && DecisionIsCentral(resolve, s, s.ops[id], consents)
    requires consenting == ConsentsAt(consents, s.ops[id].node, s.ops[id].Target(resolve))
    ensures DecisionIsCentral(resolve, s, DoConsentLocal(s, id, consenting).ops[id], consents)
  {
    var op, op' := s.ops[id], DoConsentLocal(s, id, consenting).ops[id];
    assert op.node in op.asking.Keys;
    NodeAsksCentrally(resolve, s, op, op.node, consents);
    if op'.phase.Refused? {
      var x :| x in op.refs && x.nodeId == op.node && !ConsentHolds(s, consents, x, op.Target(resolve));
      assert !Passes(s, consents, x, op'.Target(resolve));
    }
    forall x | x in op'.refs && RulesMet(op', x.nodeId)
      ensures x.nodeId == op.node
    {
      assert x.nodeId != op.node ==> x.nodeId in RemoteNodes(op.refs, op.node);
    }
  }

  lemma ResolveIsCentral(resolve: Resolver, s: State, id: OpId, consents: Consents)
    requires Inv(resolve, s) && SettledInv(resolve, s, consents, id) && In(s, id, LocalPassed)
    ensures DecisionIsCentral(resolve, s, DoResolvePolicy(s, id).ops[id], consents)
  {
    var op, op' := s.ops[id], DoResolvePolicy(s, id).ops[id];
    forall x | x in op'.refs && RulesMet(op', x.nodeId)
      ensures RulesMet(op, x.nodeId)
    {
      assert x.nodeId != op.node ==> x.nodeId in RemoteNodes(op.refs, op.node);
    }
  }

  lemma PendingIsRegistered(resolve: Resolver, s: State, id: OpId, n: NodeId, consents: Consents)
    requires Inv(resolve, s) && SettledInv(resolve, s, consents, id) && In(s, id, Checking) && n in s.ops[id].pending
    ensures n in s.nodes
  {
    var y :| y in s.ops[id].refs && y.nodeId == n;
    assert y in ProvOf(s, s.ops[id].Source());
  }

  lemma CheckRemoteIsCentral(resolve: Resolver, s: State, id: OpId, n: NodeId, consents: Consents)
    requires In(s, id, Checking) && n in s.ops[id].pending && n in s.nodes
    requires PhaseShape(s.ops[id]) && DecisionIsCentral(resolve, s, s.ops[id], consents)
    ensures DecisionIsCentral(resolve, s, DoCheckRemote(resolve, s, id, n).ops[id], consents)
  {
    var op, op' := s.ops[id], DoCheckRemote(resolve, s, id, n).ops[id];
    NodeFindsCentrally(resolve, s, op, n);
    if op'.phase.Refused? {
      var x :| x in op.refs && x.nodeId == n && !RulesHold(s, x, op.Target(resolve));
      assert !Passes(s, consents, x, op'.Target(resolve));
    }
    forall x | x in op'.refs && RulesMet(op', x.nodeId)
      ensures x.nodeId == n || RulesMet(op, x.nodeId)
    {
      assert x.nodeId in op.pending ==> x.nodeId == n || x.nodeId in op.pending - {n};
    }
  }

  lemma ConsentRemoteIsCentral(resolve: Resolver, s: State, id: OpId, n: NodeId, consenting: set<Resource>,
                               consents: Consents)
    requires In(s, id, Checking) && n in s.ops[id].asking
    requires PhaseShape(s.ops[id]) && DecisionIsCentral(resolve, s, s.ops[id], consents)
    requires consenting == ConsentsAt(consents, n, s.ops[id].Target(resolve))
    ensures DecisionIsCentral(resolve, s, DoConsentRemote(s, id, n, consenting).ops[id], consents)
  {
    var op, op' := s.ops[id], DoConsentRemote(s, id, n, consenting).ops[id];
    NodeAsksCentrally(resolve, s, op, n, consents);
    if op'.phase.Refused? {
      var x :| x in op.refs && x.nodeId == n && !ConsentHolds(s, consents, x, op.Target(resolve));
      assert !Passes(s, consents, x, op'.Target(resolve));
    }
    forall x | x in op'.refs && RulesMet(op', x.nodeId)
      ensures RulesMet(op, x.nodeId) && (x.nodeId !in op'.asking ==> x.nodeId == n || x.nodeId !in op.asking)
    {
    }
  }

  // ---------------------------------------------------------------- the other actions of the request

  ghost predicate StaysCentral(resolve: Resolver, s: State, s': State, consents: Consents, id: OpId) {
    id in s'.ops ==> DecisionIsCentral(resolve, s, s'.ops[id], consents)
  }

  lemma FetchIsCentral(resolve: Resolver, s: State, id: OpId, consents: Consents)
    requires Inv(resolve, s) && SettledInv(resolve, s, consents, id) && id in s.ops
    ensures StaysCentral(resolve, s, DoPeerPolicy(resolve, s, id), consents, id)
    ensures StaysCentral(resolve, s, DoNoPeerPolicy(s, id), consents, id)
  {
  }

  lemma CollectIsCentral(resolve: Resolver, s: State, id: OpId, consents: Consents)
    requires Inv(resolve, s) && SettledInv(resolve, s, consents, id) && id in s.ops
    ensures StaysCentral(resolve, s, DoCollect(s, id), consents, id)
  {
  }

  lemma ReportIsCentral(resolve: Resolver, s: State, id: OpId, consents: Consents)
    requires Inv(resolve, s) && SettledInv(resolve, s, consents, id) && id in s.ops
    ensures StaysCentral(resolve, s, DoReport(s, id), consents, id)
    ensures StaysCentral(resolve, s, DoReadSource(resolve, s, id), consents, id)
  {
  }

  lemma FailureIsCentral(resolve: Resolver, s: State, id: OpId, consents: Consents)
    requires Inv(resolve, s) && SettledInv(resolve, s, consents, id) && id in s.ops
    ensures StaysCentral(resolve, s, DoDeliveryFailure(s, id), consents, id)
  {
  }

  lemma RecordIsCentral(resolve: Resolver, s: State, id: OpId, consents: Consents)
    requires Inv(resolve, s) && SettledInv(resolve, s, consents, id) && id in s.ops
    ensures StaysCentral(resolve, s, DoRecord(resolve, s, id), consents, id)
    ensures StaysCentral(resolve, s, DoDeliver(resolve, s, id), consents, id)
  {
  }

  lemma ReserveIsCentral(resolve: Resolver, s: State, id: OpId, consents: Consents)
    requires Inv(resolve, s) && SettledInv(resolve, s, consents, id) && id in s.ops
    ensures StaysCentral(resolve, s, DoReservePeer(resolve, s, id), consents, id)
    ensures StaysCentral(resolve, s, DoReleasePeer(resolve, s, id), consents, id)
  {
  }

  lemma ReleaseIsCentral(resolve: Resolver, s: State, id: OpId, consents: Consents)
    requires Inv(resolve, s) && SettledInv(resolve, s, consents, id) && id in s.ops
    ensures StaysCentral(resolve, s, DoRelease(s, id), consents, id)
  {
  }

  lemma RequestIsCentral(resolve: Resolver, s: State, id: OpId, consents: Consents,
                         n: NodeId, key: (int, int), output: bool)
    requires Inv(resolve, s) && SettledInv(resolve, s, consents, id)
    ensures StaysCentral(resolve, s, DoRequest(s, id, n, key, output), consents, id)
  {
  }

  lemma EvaluationIsCentral(resolve: Resolver, s: State, a: Action, id: OpId, consents: Consents)
    requires Inv(resolve, s) && SettledInv(resolve, s, consents, id)
    requires SettledStep(resolve, s, a, consents, id) && ActsOn(a, id)
    requires a.CheckLocal? || a.ConsentLocal? || a.ResolvePolicy? || a.CheckRemote? || a.ConsentRemote?
    ensures StaysCentral(resolve, s, Next(resolve, s, a), consents, id)
  {
    if a.CheckLocal? {
      if In(s, id, Collected) { CheckLocalIsCentral(resolve, s, id, consents); }
    } else if a.ConsentLocal? {
      if In(s, id, Asking) { ConsentLocalIsCentral(resolve, s, id, a.consenting, consents); }
    } else if a.ResolvePolicy? {
      if In(s, id, LocalPassed) { ResolveIsCentral(resolve, s, id, consents); }
    } else if a.CheckRemote? {
      if In(s, id, Checking) && a.node in s.ops[id].pending {
        PendingIsRegistered(resolve, s, id, a.node, consents);
        CheckRemoteIsCentral(resolve, s, id, a.node, consents);
      }
    } else if In(s, id, Checking) && a.node in s.ops[id].asking {
      ConsentRemoteIsCentral(resolve, s, id, a.node, a.consenting, consents);
    }
  }

  lemma ActionIsCentral(resolve: Resolver, s: State, a: Action, id: OpId, consents: Consents)
    requires Inv(resolve, s) && SettledInv(resolve, s, consents, id)
    requires SettledStep(resolve, s, a, consents, id) && ActsOn(a, id)
    ensures StaysCentral(resolve, s, Next(resolve, s, a), consents, id)
  {
    if a.CheckLocal? || a.ConsentLocal? || a.ResolvePolicy? || a.CheckRemote? || a.ConsentRemote? {
      EvaluationIsCentral(resolve, s, a, id, consents);
    } else if a.Request? {
      RequestIsCentral(resolve, s, id, consents, a.node, (a.pid, a.descriptor), a.output);
    } else if id in s.ops {
      if a.PeerPolicy? || a.NoPeerPolicy? {
        FetchIsCentral(resolve, s, id, consents);
      } else if a.Collect? {
        CollectIsCentral(resolve, s, id, consents);
      } else if a.Report? || a.ReadSource? {
        ReportIsCentral(resolve, s, id, consents);
      } else if a.DeliveryFailure? {
        FailureIsCentral(resolve, s, id, consents);
      } else if a.Record? || a.Deliver? {
        RecordIsCentral(resolve, s, id, consents);
      } else if a.Release? {
        ReleaseIsCentral(resolve, s, id, consents);
      } else if !a.RemoteFailure? {
        ReserveIsCentral(resolve, s, id, consents);
      }
    }
  }

  // ---------------------------------------------------------------- the actions of others

  /** The policies a request is judged by are the same. */
  ghost predicate SamePolicies(resolve: Resolver, s: State, s': State, op: Op) {
    && s'.nodes.Keys == s.nodes.Keys
    && forall x :: x == op.Target(resolve) || x in op.refs ==> PolicyOf(s', x) == PolicyOf(s, x)
  }

  lemma TablesKeepPolicies(resolve: Resolver, s: State, a: Action, x: LocalizedResource)
    requires a.Request? || a.ReservePeer? || a.ReleasePeer? || a.Release? || a.Enrol?
    ensures PolicyOf(Next(resolve, s, a), x) == PolicyOf(s, x) && Next(resolve, s, a).nodes.Keys == s.nodes.Keys
  {
  }

  lemma RecordKeepsPolicies(resolve: Resolver, s: State, a: Action, x: LocalizedResource)
    requires a.Record? || a.Deliver?
    ensures PolicyOf(Next(resolve, s, a), x) == PolicyOf(s, x) && Next(resolve, s, a).nodes.Keys == s.nodes.Keys
  {
  }

  /** Only an operator changes policies, and only that of one resource. */
  lemma PolicyIsKept(resolve: Resolver, s: State, a: Action, x: LocalizedResource)
    requires Shape(resolve, s) && (a.Operate? ==> x != LocalizedResource(a.node, a.update.resource))
    ensures PolicyOf(Next(resolve, s, a), x) == PolicyOf(s, x) && Next(resolve, s, a).nodes.Keys == s.nodes.Keys
  {
    if Private(a) {
      PrivateIsPrivate(resolve, s, a);
    } else if a.Record? || a.Deliver? {
      RecordKeepsPolicies(resolve, s, a, x);
    } else if !a.Operate? {
      TablesKeepPolicies(resolve, s, a, x);
    }
  }

  lemma NodesAreKept(resolve: Resolver, s: State, a: Action)
    requires Shape(resolve, s)
    ensures Next(resolve, s, a).nodes.Keys == s.nodes.Keys
  {
    if !a.Operate? {
      PolicyIsKept(resolve, s, a, LocalizedResource("", Null));
    }
  }

  lemma PoliciesAreKept(resolve: Resolver, s: State, a: Action, consents: Consents, id: OpId, op: Op)
    requires Shape(resolve, s) && id in s.ops && SettledStep(resolve, s, a, consents, id)
    requires op.Target(resolve) == s.ops[id].Target(resolve) && (a.Operate? ==> op.refs == s.ops[id].refs)
    ensures SamePolicies(resolve, s, Next(resolve, s, a), op)
  {
    NodesAreKept(resolve, s, a);
    forall x | x == op.Target(resolve) || x in op.refs
      ensures PolicyOf(Next(resolve, s, a), x) == PolicyOf(s, x)
    {
      PolicyIsKept(resolve, s, a, x);
    }
  }

  lemma AsksTheSame(resolve: Resolver, s: State, s': State, op: Op, n: NodeId)
    requires SamePolicies(resolve, s, s', op)
    ensures AskedAt(s', op, n) == AskedAt(s, op, n)
  {
    if n in s.nodes {
      forall r | r in Provenance.RefsAt(op.refs, n)
        ensures Compliance.Lookup(s'.nodes[n].policies, r) == Compliance.Lookup(s.nodes[n].policies, r)
      {
        assert PolicyOf(s', LocalizedResource(n, r)) == PolicyOf(s, LocalizedResource(n, r));
      }
    }
  }

  lemma DecisionIsKept(resolve: Resolver, s: State, s': State, op: Op, consents: Consents)
    requires SamePolicies(resolve, s, s', op) && DecisionIsCentral(resolve, s, op, consents)
    ensures DecisionIsCentral(resolve, s', op, consents)
  {
    forall x | x in op.refs
      ensures RulesHold(s', x, op.Target(resolve)) == RulesHold(s, x, op.Target(resolve))
      ensures ConsentHolds(s', consents, x, op.Target(resolve)) == ConsentHolds(s, consents, x, op.Target(resolve))
    {
    }
    forall n
      ensures AskedAt(s', op, n) == AskedAt(s, op, n)
    {
      AsksTheSame(resolve, s, s', op, n);
    }
  }

  lemma RegisteredIsKept(resolve: Resolver, s: State, a: Action)
    requires Inv(resolve, s) && Registered(s)
    ensures Registered(Next(resolve, s, a))
  {
    NodesAreKept(resolve, s, a);
    RecordingEffect(resolve, s, a);
    if Recorded(resolve, s, a).Some? {
      RecordedFlow(resolve, s, a);
    }
  }

  lemma SettledInvIsKept(resolve: Resolver, s: State, a: Action, consents: Consents, id: OpId)
    requires Inv(resolve, s) && SettledInv(resolve, s, consents, id) && SettledStep(resolve, s, a, consents, id)
    ensures SettledInv(resolve, Next(resolve, s, a), consents, id)
  {
    var s' := Next(resolve, s, a);
    RegisteredIsKept(resolve, s, a);
    if id in s'.ops {
      if ActsOn(a, id) {
        ActionIsCentral(resolve, s, a, id, consents);
        forall x
          ensures PolicyOf(s', x) == PolicyOf(s, x)
        {
          PolicyIsKept(resolve, s, a, x);
        }
        NodesAreKept(resolve, s, a);
      } else {
        OthersUntouched(resolve, s, a, id);
        PoliciesAreKept(resolve, s, a, consents, id, s'.ops[id]);
      }
      DecisionIsKept(resolve, s, s', s'.ops[id], consents);
    }
  }

  lemma {:induction false} RunsAreCentral(resolve: Resolver, s: State, actions: seq<Action>, consents: Consents,
                                          id: OpId)
    requires Inv(resolve, s) && SettledInv(resolve, s, consents, id)
    requires Admissible(resolve, actions) && SettledRun(resolve, s, actions, consents, id)
    ensures SettledInv(resolve, Exec(resolve, s, actions), consents, id)
    decreases |actions|
  {
    if actions != [] {
      RunsKeepInv(resolve, s, [actions[0]]);
      assert Exec(resolve, s, [actions[0]]) == Next(resolve, s, actions[0]);
      SettledInvIsKept(resolve, s, actions[0], consents, id);
      RunsAreCentral(resolve, Next(resolve, s, actions[0]), actions[1..], consents, id);
    }
  }

  /** In every run from an initial state, whatever operators did before the request and do to other resources since:
      once decided, it was granted if and only if the peer's end of a stream was reserved, if there is one, and every
      reference of the source passes. */
  lemma GrantedExactlyIfAllPass(resolve: Resolver, s: State, actions: seq<Action>, consents: Consents, id: OpId)
    requires Initial(s) && Admissible(resolve, actions) && SettledRun(resolve, s, actions, consents, id)
    ensures var t := Exec(resolve, s, actions);
            id in t.ops && (Approved(t.ops[id].phase) || Denied(t.ops[id].phase)) ==>
              (Approved(t.ops[id].phase)
               <==> && (t.ops[id].destination.IsStream() ==> t.ops[id].policy.Some?)
                    && forall x :: x in t.ops[id].refs ==> Passes(t, consents, x, t.ops[id].Target(resolve)))
  {
    InitialInv(resolve, s);
    RunsAreCentral(resolve, s, actions, consents, id);
    var t := Exec(resolve, s, actions);
    RunsKeepInv(resolve, s, actions);
    if id in t.ops && Approved(t.ops[id].phase) {
      assert t.ops[id].asking == map[];
    }
  }

  /** A run that does anything whatever, and then starts the request and leaves its policies alone, is such a run. */
  lemma {:induction false} SettledAfterwards(resolve: Resolver, s: State, before: seq<Action>, actions: seq<Action>,
                                             consents: Consents, id: OpId)
    requires Inv(resolve, s) && Admissible(resolve, before)
    requires id !in Exec(resolve, s, before).ops
    requires SettledRun(resolve, Exec(resolve, s, before), actions, consents, id)
    ensures SettledRun(resolve, s, before + actions, consents, id)
    decreases |before|
  {
    if before == [] {
      assert before + actions == actions;
    } else {
      var s' := Next(resolve, s, before[0]);
      assert (before + actions)[0] == before[0] && (before + actions)[1..] == before[1..] + actions;
      RunsKeepInv(resolve, s, [before[0]]);
      assert Exec(resolve, s, [before[0]]) == s';
      SettledAfterwards(resolve, s', before[1..], actions, consents, id);
      if id in s.ops {
        RequestRemains(resolve, s, before[0], id);
        RequestsRemain(resolve, s', before[1..], id);
      }
    }
  }

  lemma RequestRemains(resolve: Resolver, s: State, a: Action, id: OpId)
    requires Shape(resolve, s) && id in s.ops
    ensures id in Next(resolve, s, a).ops
  {
    if Private(a) {
      PrivateIsPrivate(resolve, s, a);
    }
  }

  lemma {:induction false} RequestsRemain(resolve: Resolver, s: State, actions: seq<Action>, id: OpId)
    requires Inv(resolve, s) && Admissible(resolve, actions) && id in s.ops
    ensures id in Exec(resolve, s, actions).ops
    decreases |actions|
  {
    if actions != [] {
      RunsKeepInv(resolve, s, [actions[0]]);
      assert Exec(resolve, s, [actions[0]]) == Next(resolve, s, actions[0]);
      RequestRemains(resolve, s, actions[0], id);
      RequestsRemain(resolve, Next(resolve, s, actions[0]), actions[1..], id);
    }
  }

  /** The same for a request made at any moment of any run. */
  lemma GrantedExactlyAfterAnything(resolve: Resolver, s: State, before: seq<Action>, actions: seq<Action>,
                                    consents: Consents, id: OpId)
    requires Initial(s) && Admissible(resolve, before) && Admissible(resolve, actions)
    requires id !in Exec(resolve, s, before).ops
    requires SettledRun(resolve, Exec(resolve, s, before), actions, consents, id)
    ensures var t := Exec(resolve, Exec(resolve, s, before), actions);
            id in t.ops && (Approved(t.ops[id].phase) || Denied(t.ops[id].phase)) ==>
              (Approved(t.ops[id].phase)
               <==> && (t.ops[id].destination.IsStream() ==> t.ops[id].policy.Some?)
                    && forall x :: x in t.ops[id].refs ==> Passes(t, consents, x, t.ops[id].Target(resolve)))
  {
    InitialInv(resolve, s);
    SettledAfterwards(resolve, s, before, actions, consents, id);
    ExecInTurn(resolve, s, before, actions);
    GrantedExactlyIfAllPass(resolve, s, before + actions, consents, id);
  }
}

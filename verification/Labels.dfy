/**
 No write-down: as long as the operators leave confidentiality and integrity
 alone, whatever a resource was derived from may flow to it.
 */
module Labels {
  import opened Naming
  import opened Protocol
  import opened Ownership
  import opened Recording
  import Provenance
  import Compliance

  predicate MayFlow(source: Policy, destination: Policy) {
    && source.integrity >= destination.integrity
    && !(source.confidentiality == Compliance.Secret && destination.confidentiality == Compliance.Public)
  }

  predicate SameLabel(p: Policy, q: Policy) {
    p.confidentiality == q.confidentiality && p.integrity == q.integrity
  }

  predicate Relabels(a: Action) {
    a.Operate? && (a.update.SetPolicy? || a.update.SetConfidentiality? || a.update.SetIntegrity?)
  }

  ghost predicate SameLabels(s: State, s': State) {
    forall x :: SameLabel(PolicyOf(s', x), PolicyOf(s, x))
  }

  lemma PrivateKeepsLabels(resolve: Resolver, s: State, a: Action)
    requires Shape(resolve, s) && Private(a)
    ensures SameLabels(s, Next(resolve, s, a))
  {
    PrivateIsPrivate(resolve, s, a);
  }

  lemma TablesKeepLabels(resolve: Resolver, s: State, a: Action)
    requires a.Request? || a.ReservePeer? || a.ReleasePeer? || a.Release?
    ensures SameLabels(s, Next(resolve, s, a))
  {
  }

  lemma RecordKeepsLabels(resolve: Resolver, s: State, a: Action)
    requires a.Record? || a.Deliver?
    ensures SameLabels(s, Next(resolve, s, a))
  {
  }

  lemma LabelsAreKept(resolve: Resolver, s: State, a: Action)
    requires Shape(resolve, s) && !Relabels(a)
    ensures SameLabels(s, Next(resolve, s, a))
  {
    if Private(a) {
      PrivateKeepsLabels(resolve, s, a);
    } else if a.Record? || a.Deliver? {
      RecordKeepsLabels(resolve, s, a);
    } else if !a.Enrol? && !a.Operate? {
      TablesKeepLabels(resolve, s, a);
    }
  }

  /** The policies of node `n` were read and the rules were met, even if consents are still awaited, and the request
      was not refused since. */
  predicate Cleared(op: Op, n: NodeId) {
    || ((op.phase.Asking? || op.phase.LocalPassed?) && n == op.node)
    || (op.phase.Checking? && n !in op.pending)
    || op.phase.Granted? || op.phase.Reporting? || op.phase.Sending?
  }

  ghost predicate PolicyIsTargets(resolve: Resolver, s: State, op: Op) {
    op.policy.Some? ==> SameLabel(op.policy.value, PolicyOf(s, op.Target(resolve)))
  }

  ghost predicate ClearedMayFlow(resolve: Resolver, s: State, op: Op) {
    forall x :: x in op.refs && Cleared(op, x.nodeId) ==> MayFlow(PolicyOf(s, x), PolicyOf(s, op.Target(resolve)))
  }

  ghost predicate NoWriteDown(s: State) {
    forall x, y :: x in ProvOf(s, y) ==> !x.resource.IsStream() && MayFlow(PolicyOf(s, x), PolicyOf(s, y))
  }

  ghost predicate LabelInv(resolve: Resolver, s: State) {
    && NoWriteDown(s)
    && forall id :: id in s.ops ==> PolicyIsTargets(resolve, s, s.ops[id]) && ClearedMayFlow(resolve, s, s.ops[id])
  }

  /** The references of a node meet the rules if and only if the policy of the target is there and none of them is
      deleted, goes to a deleted target, or may not flow to it. */
  lemma RulesCompareExactly(resolve: Resolver, s: State, op: Op, n: NodeId)
    ensures var target := op.Target(resolve);
            RulesAt(resolve, s, op, n) <==>
            && n in s.nodes
            && (target.nodeId == n || op.policy.Some?)
            && forall x :: x in op.refs && x.nodeId == n && !x.resource.IsStream() ==>
                 var q := if target.nodeId == n then PolicyOf(s, target) else op.policy.value;
                 && PolicyOf(s, x).deleted == Compliance.NotDeleted && q.deleted == Compliance.NotDeleted
                 && MayFlow(PolicyOf(s, x), q)
  {
    forall x | x in op.refs && x.nodeId == n
      ensures x.resource in Provenance.RefsAt(op.refs, n)
    {
    }
    forall r | r in Provenance.RefsAt(op.refs, n)
      ensures LocalizedResource(n, r) in op.refs
    {
    }
  }

  /** A node whose references meet the rules has compared each of them with the destination. */
  lemma RulesCompare(resolve: Resolver, s: State, op: Op, n: NodeId, x: LocalizedResource)
    requires PolicyIsTargets(resolve, s, op) && RulesAt(resolve, s, op, n)
    requires x in op.refs && x.nodeId == n && !x.resource.IsStream()
    ensures MayFlow(PolicyOf(s, x), PolicyOf(s, op.Target(resolve)))
  {
    assert x.resource in Provenance.RefsAt(op.refs, n);
  }

  lemma CheckLocalClears(resolve: Resolver, s: State, id: OpId)
    requires Inv(resolve, s) && LabelInv(resolve, s) && In(s, id, Collected)
    ensures var op := DoCheckLocal(resolve, s, id).ops[id];
            PolicyIsTargets(resolve, s, op) && ClearedMayFlow(resolve, s, op)
  {
    var op, op' := s.ops[id], DoCheckLocal(resolve, s, id).ops[id];
    forall x | x in op'.refs && Cleared(op', x.nodeId)
      ensures MayFlow(PolicyOf(s, x), PolicyOf(s, op'.Target(resolve)))
    {
      RulesCompare(resolve, s, op, op.node, x);
    }
  }

  lemma ConsentLocalClears(resolve: Resolver, s: State, id: OpId, consenting: set<Resource>)
    requires Inv(resolve, s) && LabelInv(resolve, s) && In(s, id, Asking)
    ensures var op := DoConsentLocal(s, id, consenting).ops[id];
            PolicyIsTargets(resolve, s, op) && ClearedMayFlow(resolve, s, op)
  {
    var op, op' := s.ops[id], DoConsentLocal(s, id, consenting).ops[id];
    forall x | x in op'.refs && Cleared(op', x.nodeId)
      ensures MayFlow(PolicyOf(s, x), PolicyOf(s, op'.Target(resolve)))
    {
      ConsentLocalCleared(op, Awaited(op, op.node) <= consenting, x);
    }
  }

  lemma ResolveClears(resolve: Resolver, s: State, id: OpId)
    requires Inv(resolve, s) && LabelInv(resolve, s) && In(s, id, LocalPassed)
    ensures var op := DoResolvePolicy(s, id).ops[id];
            PolicyIsTargets(resolve, s, op) && ClearedMayFlow(resolve, s, op)
  {
    var op, op' := s.ops[id], DoResolvePolicy(s, id).ops[id];
    forall x | x in op'.refs && Cleared(op', x.nodeId)
      ensures MayFlow(PolicyOf(s, x), PolicyOf(s, op'.Target(resolve)))
    {
      assert x.nodeId != op.node ==> x.nodeId in RemoteNodes(op.refs, op.node);
    }
  }

  /** The arrival of consents brings no request past a further node. */
  lemma ConsentLocalCleared(op: Op, consents: bool, x: LocalizedResource)
    requires op.phase.Asking? && x in op.refs && Cleared(AfterLocalConsent(op, consents), x.nodeId)
    ensures consents && Cleared(op, x.nodeId)
  {
    assert x.nodeId != op.node ==> x.nodeId in RemoteNodes(op.refs, op.node);
  }

  lemma ConsentRemoteCleared(op: Op, n: NodeId, consents: bool, m: NodeId)
    requires op.phase.Checking? && Cleared(AfterRemoteConsent(op, n, consents), m)
    ensures consents && Cleared(op, m)
  {
  }

  lemma AfterRemoteCleared(op: Op, n: NodeId, passes: bool, asked: set<Resource>, m: NodeId)
    requires op.phase.Checking? && Cleared(AfterRemote(op, n, passes, asked), m)
    ensures passes && (m == n || Cleared(op, m))
  {
    assert m in op.pending <==> m in op.pending - {n} || (m == n && n in op.pending);
  }

  lemma ConsentRemoteClears(resolve: Resolver, s: State, id: OpId, n: NodeId, consents: bool)
    requires Inv(resolve, s) && LabelInv(resolve, s) && In(s, id, Checking)
    ensures var op := AfterRemoteConsent(s.ops[id], n, consents);
            PolicyIsTargets(resolve, s, op) && ClearedMayFlow(resolve, s, op)
  {
    var op, op' := s.ops[id], AfterRemoteConsent(s.ops[id], n, consents);
    forall x | x in op'.refs && Cleared(op', x.nodeId)
      ensures MayFlow(PolicyOf(s, x), PolicyOf(s, op'.Target(resolve)))
    {
      ConsentRemoteCleared(op, n, consents, x.nodeId);
    }
  }

  lemma CheckRemoteClears(resolve: Resolver, s: State, id: OpId, n: NodeId)
    requires Inv(resolve, s) && LabelInv(resolve, s) && In(s, id, Checking) && n in s.ops[id].pending
    ensures var op := AfterRemote(s.ops[id], n, RulesAt(resolve, s, s.ops[id], n), AskedAt(s, s.ops[id], n));
            PolicyIsTargets(resolve, s, op) && ClearedMayFlow(resolve, s, op)
  {
    var op, passes, asked := s.ops[id], RulesAt(resolve, s, s.ops[id], n), AskedAt(s, s.ops[id], n);
    var op' := AfterRemote(op, n, passes, asked);
    forall x | x in op'.refs && Cleared(op', x.nodeId)
      ensures MayFlow(PolicyOf(s, x), PolicyOf(s, op'.Target(resolve)))
    {
      AfterRemoteCleared(op, n, passes, asked, x.nodeId);
      if x.nodeId == n {
        assert x in ProvOf(s, op.Source());
        RulesCompare(resolve, s, op, n, x);
      }
    }
  }

  ghost predicate StaysClear(resolve: Resolver, s: State, s': State, id: OpId) {
    id in s'.ops ==> PolicyIsTargets(resolve, s, s'.ops[id]) && ClearedMayFlow(resolve, s, s'.ops[id])
  }

  lemma FetchClears(resolve: Resolver, s: State, id: OpId)
    requires Inv(resolve, s) && LabelInv(resolve, s) && id in s.ops
    ensures StaysClear(resolve, s, DoPeerPolicy(resolve, s, id), id)
    ensures StaysClear(resolve, s, DoNoPeerPolicy(s, id), id)
  {
  }

  lemma CollectClears(resolve: Resolver, s: State, id: OpId)
    requires Inv(resolve, s) && LabelInv(resolve, s) && id in s.ops
    ensures StaysClear(resolve, s, DoCollect(s, id), id)
    ensures StaysClear(resolve, s, DoRemoteFailure(s, id), id)
  {
  }

  lemma ReportClears(resolve: Resolver, s: State, id: OpId)
    requires Inv(resolve, s) && LabelInv(resolve, s) && id in s.ops
    ensures StaysClear(resolve, s, DoReport(s, id), id)
    ensures StaysClear(resolve, s, DoReadSource(resolve, s, id), id)
    ensures StaysClear(resolve, s, DoDeliveryFailure(s, id), id)
  {
  }

  lemma RecordClears(resolve: Resolver, s: State, id: OpId)
    requires Inv(resolve, s) && LabelInv(resolve, s) && id in s.ops
    ensures StaysClear(resolve, s, DoRecord(resolve, s, id), id)
    ensures StaysClear(resolve, s, DoDeliver(resolve, s, id), id)
  {
  }

  lemma ReserveClears(resolve: Resolver, s: State, id: OpId)
    requires Inv(resolve, s) && LabelInv(resolve, s) && id in s.ops
    ensures StaysClear(resolve, s, DoReservePeer(resolve, s, id), id)
    ensures StaysClear(resolve, s, DoReleasePeer(resolve, s, id), id)
  {
  }

  lemma ReleaseClears(resolve: Resolver, s: State, id: OpId)
    requires Inv(resolve, s) && LabelInv(resolve, s) && id in s.ops
    ensures StaysClear(resolve, s, DoRelease(s, id), id)
  {
  }

  lemma RequestClears(resolve: Resolver, s: State, id: OpId, n: NodeId, key: (int, int), output: bool)
    requires Inv(resolve, s) && LabelInv(resolve, s)
    ensures StaysClear(resolve, s, DoRequest(s, id, n, key, output), id)
  {
  }

  lemma EvaluationClears(resolve: Resolver, s: State, a: Action, id: OpId)
    requires Inv(resolve, s) && LabelInv(resolve, s) && ActsOn(a, id)
    requires a.CheckLocal? || a.ConsentLocal? || a.ResolvePolicy? || a.CheckRemote? || a.ConsentRemote?
    ensures StaysClear(resolve, s, Next(resolve, s, a), id)
  {
    if a.CheckLocal? {
      if In(s, id, Collected) { CheckLocalClears(resolve, s, id); }
    } else if a.ConsentLocal? {
      if In(s, id, Asking) { ConsentLocalClears(resolve, s, id, a.consenting); }
    } else if a.ResolvePolicy? {
      if In(s, id, LocalPassed) { ResolveClears(resolve, s, id); }
    } else if a.CheckRemote? {
      if In(s, id, Checking) && a.node in s.ops[id].pending { CheckRemoteClears(resolve, s, id, a.node); }
    } else if In(s, id, Checking) {
      ConsentRemoteClears(resolve, s, id, a.node, Awaited(s.ops[id], a.node) <= a.consenting);
    }
  }

  lemma ActionClears(resolve: Resolver, s: State, a: Action, id: OpId)
    requires Inv(resolve, s) && LabelInv(resolve, s) && ActsOn(a, id)
    ensures StaysClear(resolve, s, Next(resolve, s, a), id)
  {
    if a.CheckLocal? || a.ConsentLocal? || a.ResolvePolicy? || a.CheckRemote? || a.ConsentRemote? {
      EvaluationClears(resolve, s, a, id);
    } else if a.Request? {
      RequestClears(resolve, s, id, a.node, (a.pid, a.descriptor), a.output);
    } else if id in s.ops {
      if a.PeerPolicy? || a.NoPeerPolicy? {
        FetchClears(resolve, s, id);
      } else if a.Collect? || a.RemoteFailure? {
        CollectClears(resolve, s, id);
      } else if a.Report? || a.ReadSource? || a.DeliveryFailure? {
        ReportClears(resolve, s, id);
      } else if a.Record? || a.Deliver? {
        RecordClears(resolve, s, id);
      } else if a.Release? {
        ReleaseClears(resolve, s, id);
      } else {
        ReserveClears(resolve, s, id);
      }
    }
  }

  /** What an action adds to the references of a resource may flow to it. */
  lemma AddedMayFlow(resolve: Resolver, s: State, a: Action, x: LocalizedResource, y: LocalizedResource)
    requires Inv(resolve, s) && LabelInv(resolve, s)
    requires x in Added(s, Recorded(resolve, s, a), y)
    ensures !x.resource.IsStream() && MayFlow(PolicyOf(s, x), PolicyOf(s, y))
  {
    RecordedFlow(resolve, s, a);
    assert x in s.ops[a.id].refs && Cleared(s.ops[a.id], x.nodeId);
  }

  lemma ReferenceMayFlow(resolve: Resolver, s: State, a: Action, x: LocalizedResource, y: LocalizedResource)
    requires Inv(resolve, s) && LabelInv(resolve, s)
    requires x in ProvOf(Next(resolve, s, a), y)
    ensures !x.resource.IsStream() && MayFlow(PolicyOf(s, x), PolicyOf(s, y))
  {
    RecordingEffect(resolve, s, a);
    if x !in ProvOf(s, y) {
      AddedMayFlow(resolve, s, a, x, y);
    }
  }

  lemma WriteDownIsKept(resolve: Resolver, s: State, a: Action)
    requires Inv(resolve, s) && LabelInv(resolve, s)
    requires SameLabels(s, Next(resolve, s, a))
    ensures NoWriteDown(Next(resolve, s, a))
  {
    var s' := Next(resolve, s, a);
    forall x, y | x in ProvOf(s', y)
      ensures !x.resource.IsStream() && MayFlow(PolicyOf(s', x), PolicyOf(s', y))
    {
      ReferenceMayFlow(resolve, s, a, x, y);
    }
  }

  lemma LabelInvIsKept(resolve: Resolver, s: State, a: Action)
    requires Inv(resolve, s) && LabelInv(resolve, s) && !Relabels(a)
    ensures LabelInv(resolve, Next(resolve, s, a))
  {
    var s' := Next(resolve, s, a);
    LabelsAreKept(resolve, s, a);
    WriteDownIsKept(resolve, s, a);
    forall id | id in s'.ops
      ensures PolicyIsTargets(resolve, s', s'.ops[id]) && ClearedMayFlow(resolve, s', s'.ops[id])
    {
      if ActsOn(a, id) {
        ActionClears(resolve, s, a, id);
      } else {
        OthersUntouched(resolve, s, a, id);
      }
    }
  }

  lemma {:induction false} RunsKeepLabelInv(resolve: Resolver, s: State, actions: seq<Action>)
    requires Inv(resolve, s) && LabelInv(resolve, s) && Admissible(resolve, actions)
    requires forall a :: a in actions ==> !Relabels(a)
    ensures LabelInv(resolve, Exec(resolve, s, actions))
    decreases |actions|
  {
    if actions != [] {
      var a := actions[0];
      RunsKeepInv(resolve, s, [a]);
      assert Exec(resolve, s, [a]) == Next(resolve, s, a);
      LabelInvIsKept(resolve, s, a);
      RunsKeepLabelInv(resolve, Next(resolve, s, a), actions[1..]);
    }
  }
}

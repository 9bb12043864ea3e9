/**
 Complete mediation: whatever operators do in the meantime, no reference is ever
 recorded that was not evaluated, by the node that owns it, for a flow to the very
 resource it is recorded at.
 */
module Mediation {
  import opened Naming
  import opened Protocol
  import opened Ownership
  import opened Recording
  import opened Labels
  import opened Deletion
  import Compliance
  import Provenance

  /** In state `u`, action `a` reads the policies for request `id` to `y` on the node of its reference `x`, and the
      rules are met. */
  ghost predicate Evaluates(resolve: Resolver, u: State, a: Action, id: OpId,
                            x: LocalizedResource, y: LocalizedResource)
  {
    && (|| (a.CheckLocal? && a.id == id && In(u, id, Collected) && u.ops[id].node == x.nodeId)
        || (a.CheckRemote? && a.id == id && In(u, id, Checking) && a.node == x.nodeId && a.node in u.ops[id].pending))
    && x in u.ops[id].refs
    && y == u.ops[id].Target(resolve)
    && RulesAt(resolve, u, u.ops[id], x.nodeId)
  }

  /** In state `u`, action `a` is the consent of the owner of `x` to request `id`. */
  ghost predicate Consents(u: State, a: Action, id: OpId, x: LocalizedResource) {
    && (|| (a.ConsentLocal? && a.id == id && In(u, id, Asking) && u.ops[id].node == x.nodeId)
        || (a.ConsentRemote? && a.id == id && In(u, id, Checking) && a.node == x.nodeId))
    && x.resource in a.consenting
  }

  /** The request is past the node of its reference `x`, on its way to `y`. */
  ghost predicate Past(resolve: Resolver, s: State, id: OpId, x: LocalizedResource, y: LocalizedResource) {
    id in s.ops && x in s.ops[id].refs && Cleared(s.ops[id], x.nodeId) && y == s.ops[id].Target(resolve)
  }

  // ---------------------------------------------------------------- one action

  predicate SameAsking(op: Op, op': Op, n: NodeId) {
    (n in op.asking <==> n in op'.asking) && Awaited(op', n) == Awaited(op, n)
  }

  /** How a request comes past the node of `x`, and how it stays there: the policies are read, or nothing happens
      about `x`, or the consents asked for on its node are given. */
  ghost predicate Mediates(resolve: Resolver, s: State, a: Action, op': Op, id: OpId,
                           x: LocalizedResource, y: LocalizedResource)
  {
    || (Evaluates(resolve, s, a, id, x, y)
        && x.nodeId in op'.asking && op'.asking[x.nodeId] == AskedAt(s, s.ops[id], x.nodeId))
    || (Past(resolve, s, id, x, y) && SameAsking(s.ops[id], op', x.nodeId))
    || (Past(resolve, s, id, x, y) && x.nodeId in s.ops[id].asking && x.nodeId !in op'.asking
        && (x.resource in s.ops[id].asking[x.nodeId] ==> Consents(s, a, id, x)))
  }

  lemma CheckLocalMediates(resolve: Resolver, s: State, a: Action, id: OpId, x: LocalizedResource, y: LocalizedResource)
    requires a.CheckLocal? && a.id == id && In(s, id, Collected)
    requires Past(resolve, DoCheckLocal(resolve, s, id), id, x, y)
    ensures Mediates(resolve, s, a, DoCheckLocal(resolve, s, id).ops[id], id, x, y)
  {
  }

  lemma ConsentLocalMediates(resolve: Resolver, s: State, a: Action, id: OpId,
                             x: LocalizedResource, y: LocalizedResource)
    requires Shape(resolve, s) && a.ConsentLocal? && a.id == id && In(s, id, Asking)
    requires Past(resolve, DoConsentLocal(s, id, a.consenting), id, x, y)
    ensures Mediates(resolve, s, a, DoConsentLocal(s, id, a.consenting).ops[id], id, x, y)
  {
    var op := s.ops[id];
    ConsentLocalCleared(op, Awaited(op, op.node) <= a.consenting, x);
    assert op.node in op.asking.Keys;
  }

  lemma CheckRemoteMediates(resolve: Resolver, s: State, a: Action, id: OpId,
                            x: LocalizedResource, y: LocalizedResource)
    requires a.CheckRemote? && a.id == id && In(s, id, Checking) && a.node in s.ops[id].pending
    requires Past(resolve, DoCheckRemote(resolve, s, id, a.node), id, x, y)
    ensures Mediates(resolve, s, a, DoCheckRemote(resolve, s, id, a.node).ops[id], id, x, y)
  {
    var op := s.ops[id];
    AfterRemoteCleared(op, a.node, RulesAt(resolve, s, op, a.node), AskedAt(s, op, a.node), x.nodeId);
  }

  lemma ConsentRemoteMediates(resolve: Resolver, s: State, a: Action, id: OpId,
                              x: LocalizedResource, y: LocalizedResource)
    requires a.ConsentRemote? && a.id == id && In(s, id, Checking) && a.node in s.ops[id].asking
    requires Past(resolve, DoConsentRemote(s, id, a.node, a.consenting), id, x, y)
    ensures Mediates(resolve, s, a, DoConsentRemote(s, id, a.node, a.consenting).ops[id], id, x, y)
  {
    var op := s.ops[id];
    ConsentRemoteCleared(op, a.node, Awaited(op, a.node) <= a.consenting, x.nodeId);
  }

  /** The evaluated references of the request, and what is asked about them, are the same afterwards. */
  ghost predicate KeepsRefs(s: State, s': State, id: OpId) {
    && (id in s'.ops <==> id in s.ops)
    && (id in s.ops ==> s'.ops[id].refs == s.ops[id].refs && s'.ops[id].asking == s.ops[id].asking)
  }

  lemma FetchKeepsRefs(resolve: Resolver, s: State, id: OpId)
    requires Shape(resolve, s)
    ensures KeepsRefs(s, DoPeerPolicy(resolve, s, id), id) && KeepsRefs(s, DoNoPeerPolicy(s, id), id)
    ensures KeepsRefs(s, DoResolvePolicy(s, id), id) && KeepsRefs(s, DoRemoteFailure(s, id), id)
  {
  }

  lemma ReportKeepsRefs(resolve: Resolver, s: State, id: OpId)
    requires Shape(resolve, s)
    ensures KeepsRefs(s, DoReport(s, id), id) && KeepsRefs(s, DoReadSource(resolve, s, id), id)
    ensures KeepsRefs(s, DoDeliveryFailure(s, id), id)
  {
  }

  lemma RecordKeepsRefs(resolve: Resolver, s: State, id: OpId)
    requires Shape(resolve, s)
    ensures KeepsRefs(s, DoRecord(resolve, s, id), id) && KeepsRefs(s, DoDeliver(resolve, s, id), id)
  {
  }

  lemma ReservationKeepsRefs(resolve: Resolver, s: State, id: OpId)
    requires Shape(resolve, s)
    ensures KeepsRefs(s, DoReservePeer(resolve, s, id), id) && KeepsRefs(s, DoReleasePeer(resolve, s, id), id)
    ensures KeepsRefs(s, DoRelease(s, id), id)
  {
  }

  predicate Evaluating(a: Action) {
    a.CheckLocal? || a.CheckRemote? || a.ConsentLocal? || a.ConsentRemote?
  }

  lemma OthersKeepRefs(resolve: Resolver, s: State, a: Action, id: OpId)
    requires Shape(resolve, s) && ActsOn(a, id) && !Evaluating(a) && !a.Collect? && !a.Request?
    ensures KeepsRefs(s, Next(resolve, s, a), id)
  {
    FetchKeepsRefs(resolve, s, id);
    ReportKeepsRefs(resolve, s, id);
    RecordKeepsRefs(resolve, s, id);
    ReservationKeepsRefs(resolve, s, id);
  }

  /** An action other than an evaluation brings no request past a node. */
  lemma OtherActionsMediate(resolve: Resolver, s: State, a: Action, id: OpId,
                            x: LocalizedResource, y: LocalizedResource)
    requires Inv(resolve, s) && ActsOn(a, id) && !Evaluating(a)
    requires Past(resolve, Next(resolve, s, a), id, x, y)
    ensures Past(resolve, s, id, x, y) && SameAsking(s.ops[id], Next(resolve, s, a).ops[id], x.nodeId)
  {
    if a.Collect? || a.Request? {
      NewRequestsAreNotPast(resolve, s, a, x.nodeId);
    } else {
      OthersKeepRefs(resolve, s, a, id);
      if a.ResolvePolicy? {
        if In(s, id, LocalPassed) && !Cleared(s.ops[id], x.nodeId) { ResolveBars(s, id, x); }
      } else {
        OthersBar(resolve, s, a, x.nodeId);
      }
    }
    assert id in s.ops;
    SourceIsKept(resolve, s, a, id);
  }

  lemma NewRequestsAreNotPast(resolve: Resolver, s: State, a: Action, n: NodeId)
    requires a.Collect? || a.Request?
    ensures Next(resolve, s, a) == s || (a.id in Next(resolve, s, a).ops && !Cleared(Next(resolve, s, a).ops[a.id], n))
  {
  }

  /** A request comes past the node of a reference only by that node's evaluation. */
  lemma ActionMediates(resolve: Resolver, s: State, a: Action, id: OpId, x: LocalizedResource, y: LocalizedResource)
    requires Inv(resolve, s) && Past(resolve, Next(resolve, s, a), id, x, y)
    ensures Mediates(resolve, s, a, Next(resolve, s, a).ops[id], id, x, y)
  {
    if !ActsOn(a, id) {
      OthersUntouched(resolve, s, a, id);
    } else if Evaluating(a) {
      EvaluationMediates(resolve, s, a, id, x, y);
    } else {
      OtherActionsMediate(resolve, s, a, id, x, y);
    }
  }

  lemma EvaluationMediates(resolve: Resolver, s: State, a: Action, id: OpId, x: LocalizedResource, y: LocalizedResource)
    requires Inv(resolve, s) && ActsOn(a, id) && Evaluating(a) && Past(resolve, Next(resolve, s, a), id, x, y)
    ensures Mediates(resolve, s, a, Next(resolve, s, a).ops[id], id, x, y)
  {
    if a.CheckLocal? {
      if In(s, id, Collected) { CheckLocalMediates(resolve, s, a, id, x, y); }
    } else if a.ConsentLocal? {
      if In(s, id, Asking) { ConsentLocalMediates(resolve, s, a, id, x, y); }
    } else if a.CheckRemote? {
      if In(s, id, Checking) && a.node in s.ops[id].pending { CheckRemoteMediates(resolve, s, a, id, x, y); }
    } else {
      if In(s, id, Checking) && a.node in s.ops[id].asking { ConsentRemoteMediates(resolve, s, a, id, x, y); }
    }
  }

  // ---------------------------------------------------------------- the policy evaluated against

  /** A request that has a policy keeps it, or gets that of its target this very moment. */
  ghost predicate PolicyIsCurrent(resolve: Resolver, s: State, s': State, id: OpId) {
    id in s'.ops && s'.ops[id].policy.Some? ==>
      && id in s.ops
      && (|| s'.ops[id].policy == s.ops[id].policy
          || (&& s.ops[id].Live()
              && s'.ops[id].Target(resolve) == s.ops[id].Target(resolve)
              && s'.ops[id].policy.value == PolicyOf(s, s.ops[id].Target(resolve))))
  }

  lemma FetchTakesPolicy(resolve: Resolver, s: State, a: Action, id: OpId)
    requires a.PeerPolicy? || a.NoPeerPolicy? || a.ResolvePolicy? || a.Request?
    ensures PolicyIsCurrent(resolve, s, Next(resolve, s, a), id)
  {
  }

  lemma CheckKeepsPolicy(resolve: Resolver, s: State, a: Action, id: OpId)
    requires a.Collect? || a.CheckLocal? || a.CheckRemote? || a.RemoteFailure?
    ensures PolicyIsCurrent(resolve, s, Next(resolve, s, a), id)
  {
  }

  lemma ConsentKeepsPolicy(resolve: Resolver, s: State, a: Action, id: OpId)
    requires a.ConsentLocal? || a.ConsentRemote? || a.DeliveryFailure?
    ensures PolicyIsCurrent(resolve, s, Next(resolve, s, a), id)
  {
  }

  lemma ReportKeepsPolicy(resolve: Resolver, s: State, a: Action, id: OpId)
    requires a.Report? || a.ReadSource? || a.Record? || a.Deliver?
    ensures PolicyIsCurrent(resolve, s, Next(resolve, s, a), id)
  {
  }

  lemma ReservationKeepsPolicy(resolve: Resolver, s: State, a: Action, id: OpId)
    requires a.ReservePeer? || a.ReleasePeer? || a.Release? || a.Enrol? || a.Operate?
    ensures PolicyIsCurrent(resolve, s, Next(resolve, s, a), id)
  {
  }

  lemma ActionTakesPolicy(resolve: Resolver, s: State, a: Action, id: OpId)
    ensures PolicyIsCurrent(resolve, s, Next(resolve, s, a), id)
  {
    if a.PeerPolicy? || a.NoPeerPolicy? || a.ResolvePolicy? || a.Request? {
      FetchTakesPolicy(resolve, s, a, id);
    } else if a.Collect? || a.CheckLocal? || a.CheckRemote? || a.RemoteFailure? {
      CheckKeepsPolicy(resolve, s, a, id);
    } else if a.ConsentLocal? || a.ConsentRemote? || a.DeliveryFailure? {
      ConsentKeepsPolicy(resolve, s, a, id);
    } else if a.Report? || a.ReadSource? || a.Record? || a.Deliver? {
      ReportKeepsPolicy(resolve, s, a, id);
    } else {
      ReservationKeepsPolicy(resolve, s, a, id);
    }
  }

  // ---------------------------------------------------------------- whole runs

  lemma LastAction(resolve: Resolver, s: State, actions: seq<Action>) returns (before: State, a: Action)
    requires Inv(resolve, s) && Admissible(resolve, actions) && actions != []
    ensures before == Exec(resolve, s, actions[..|actions| - 1]) && a == actions[|actions| - 1]
    ensures Inv(resolve, before) && Exec(resolve, s, actions) == Next(resolve, before, a)
  {
    var n := |actions| - 1;
    before, a := Exec(resolve, s, actions[..n]), actions[n];
    RunsKeepInv(resolve, s, actions[..n]);
    assert actions == actions[..n] + [a];
    ExecInTurn(resolve, s, actions[..n], [a]);
    assert Exec(resolve, before, [a]) == Next(resolve, before, a);
  }

  /** The policy a request was given is the one its target had at some moment while the request was under way. */
  lemma {:induction false} PolicyWasTargets(resolve: Resolver, s: State, actions: seq<Action>, id: OpId)
    returns (i: nat)
    requires Initial(s) && Admissible(resolve, actions)
    requires var t := Exec(resolve, s, actions);
             id in t.ops && t.ops[id].policy.Some?
    ensures i <= |actions|
    ensures var op, u := Exec(resolve, s, actions).ops[id], Exec(resolve, s, actions[..i]);
            && op.policy.value == PolicyOf(u, op.Target(resolve))
            && id in u.ops && u.ops[id].Live() && u.ops[id].Target(resolve) == op.Target(resolve)
    decreases |actions|
  {
    InitialInv(resolve, s);
    var n := |actions| - 1;
    var before, a := LastAction(resolve, s, actions);
    ActionTakesPolicy(resolve, before, a, id);
    var op := Exec(resolve, s, actions).ops[id];
    SourceIsKept(resolve, before, a, id);
    if op.policy == before.ops[id].policy {
      i := PolicyWasTargets(resolve, s, actions[..n], id);
      assert actions[..n][..i] == actions[..i];
    } else {
      i := n;
    }
  }

  /** Action `j` of the run is the evaluation of `x` for a request to `y`. */
  ghost predicate EvaluatedAt(resolve: Resolver, s: State, actions: seq<Action>, j: nat, id: OpId,
                              x: LocalizedResource, y: LocalizedResource)
  {
    j < |actions| && Evaluates(resolve, Exec(resolve, s, actions[..j]), actions[j], id, x, y)
  }

  /** Action `k` of the run is the consent of the owner of `x`. */
  ghost predicate ConsentedAt(resolve: Resolver, s: State, actions: seq<Action>, k: nat, id: OpId,
                              x: LocalizedResource)
  {
    k < |actions| && Consents(Exec(resolve, s, actions[..k]), actions[k], id, x)
  }

  ghost predicate Enforced(resolve: Resolver, s: State, actions: seq<Action>, j: nat, x: LocalizedResource)
    requires j < |actions|
  {
    PolicyOf(Exec(resolve, s, actions[..j]), x).consent
  }

  /** If consent was enforced on `x` when it was evaluated, its owner consented later, or is still being asked. */
  ghost predicate Agreed(resolve: Resolver, s: State, actions: seq<Action>, j: nat, id: OpId,
                         x: LocalizedResource, op: Op)
    requires j < |actions|
  {
    Enforced(resolve, s, actions, j, x) ==>
      x.resource in Awaited(op, x.nodeId) || exists k: nat :: j < k && ConsentedAt(resolve, s, actions, k, id, x)
  }

  lemma Longer(resolve: Resolver, s: State, actions: seq<Action>, j: nat, id: OpId,
               x: LocalizedResource, y: LocalizedResource, op: Op)
    requires actions != [] && j < |actions| - 1
    ensures var shorter := actions[..|actions| - 1];
            && (EvaluatedAt(resolve, s, shorter, j, id, x, y) ==> EvaluatedAt(resolve, s, actions, j, id, x, y))
            && (Agreed(resolve, s, shorter, j, id, x, op) ==> Agreed(resolve, s, actions, j, id, x, op))
  {
    var shorter := actions[..|actions| - 1];
    assert shorter[..j] == actions[..j];
    if k: nat :| j < k && ConsentedAt(resolve, s, shorter, k, id, x) {
      assert shorter[..k] == actions[..k];
      assert ConsentedAt(resolve, s, actions, k, id, x);
    }
  }

  /** A request that is past the node of a reference was evaluated there at some moment of the run, and its owner
      agreed since or is still being asked, if consent was enforced at that moment. */
  lemma {:induction false} PastWasEvaluated(resolve: Resolver, s: State, actions: seq<Action>, id: OpId,
                                            x: LocalizedResource, y: LocalizedResource)
    returns (j: nat)
    requires Initial(s) && Admissible(resolve, actions) && !x.resource.IsStream()
    requires Past(resolve, Exec(resolve, s, actions), id, x, y)
    ensures EvaluatedAt(resolve, s, actions, j, id, x, y)
    ensures Agreed(resolve, s, actions, j, id, x, Exec(resolve, s, actions).ops[id])
    decreases |actions|
  {
    InitialInv(resolve, s);
    var n := |actions| - 1;
    var before, a := LastAction(resolve, s, actions);
    ActionMediates(resolve, before, a, id, x, y);
    if Past(resolve, before, id, x, y) {
      j := PastWasEvaluated(resolve, s, actions[..n], id, x, y);
      Longer(resolve, s, actions, j, id, x, y, before.ops[id]);
      StillAgreed(resolve, s, actions, j, id, x, y);
    } else {
      j := n;
      EvaluatedIsAsked(resolve, s, actions, id, x, y);
    }
  }

  lemma StillAgreed(resolve: Resolver, s: State, actions: seq<Action>, j: nat, id: OpId,
                    x: LocalizedResource, y: LocalizedResource)
    requires actions != [] && j < |actions| - 1
    requires var before, a := Exec(resolve, s, actions[..|actions| - 1]), actions[|actions| - 1];
             && Past(resolve, before, id, x, y)
             && id in Exec(resolve, s, actions).ops
             && Agreed(resolve, s, actions, j, id, x, before.ops[id])
             && (|| SameAsking(before.ops[id], Exec(resolve, s, actions).ops[id], x.nodeId)
                 || (x.resource in Awaited(before.ops[id], x.nodeId) ==> Consents(before, a, id, x)))
    ensures Agreed(resolve, s, actions, j, id, x, Exec(resolve, s, actions).ops[id])
  {
    var n := |actions| - 1;
    if Consents(Exec(resolve, s, actions[..n]), actions[n], id, x) {
      assert ConsentedAt(resolve, s, actions, n, id, x);
    }
  }

  lemma EvaluatedIsAsked(resolve: Resolver, s: State, actions: seq<Action>, id: OpId,
                         x: LocalizedResource, y: LocalizedResource)
    requires actions != [] && !x.resource.IsStream()
    requires var before, a := Exec(resolve, s, actions[..|actions| - 1]), actions[|actions| - 1];
             && id in Exec(resolve, s, actions).ops
             && Evaluates(resolve, before, a, id, x, y)
             && Awaited(Exec(resolve, s, actions).ops[id], x.nodeId) == AskedAt(before, before.ops[id], x.nodeId)
    ensures EvaluatedAt(resolve, s, actions, |actions| - 1, id, x, y)
    ensures Agreed(resolve, s, actions, |actions| - 1, id, x, Exec(resolve, s, actions).ops[id])
  {
    var before := Exec(resolve, s, actions[..|actions| - 1]);
    assert x.resource in Provenance.RefsAt(before.ops[id].refs, x.nodeId);
  }

  // ---------------------------------------------------------------- complete mediation

  /** At moment `j` of the run the node of `x` evaluated `x` for request `id`, with the policy `x` had then, against
      the policy `y` had at moment `i` while that request was under way; and where consent was enforced, the owner of
      `x` consented later. */
  ghost predicate Judged(resolve: Resolver, s: State, actions: seq<Action>, i: nat, j: nat, id: OpId,
                         x: LocalizedResource, y: LocalizedResource)
  {
    && i <= j < |actions|
    && EvaluatedAt(resolve, s, actions, j, id, x, y)
    && Compliance.RulesPass(PolicyOf(Exec(resolve, s, actions[..j]), x), PolicyOf(Exec(resolve, s, actions[..i]), y))
    && UnderWay(resolve, Exec(resolve, s, actions[..i]), id, y)
    && (Enforced(resolve, s, actions, j, x) ==>
          exists k: nat :: j < k && ConsentedAt(resolve, s, actions, k, id, x))
  }

  ghost predicate UnderWay(resolve: Resolver, u: State, id: OpId, y: LocalizedResource) {
    id in u.ops && u.ops[id].Live() && u.ops[id].Target(resolve) == y
  }

  lemma EvaluationIsJudgement(resolve: Resolver, s: State, actions: seq<Action>, j: nat, id: OpId,
                              x: LocalizedResource, y: LocalizedResource)
    returns (i: nat)
    requires Initial(s) && Admissible(resolve, actions) && !x.resource.IsStream()
    requires EvaluatedAt(resolve, s, actions, j, id, x, y)
    ensures i <= j && UnderWay(resolve, Exec(resolve, s, actions[..i]), id, y)
    ensures Compliance.RulesPass(PolicyOf(Exec(resolve, s, actions[..j]), x),
                                 PolicyOf(Exec(resolve, s, actions[..i]), y))
  {
    var u := Exec(resolve, s, actions[..j]);
    assert x.resource in Provenance.RefsAt(u.ops[id].refs, x.nodeId);
    if y.nodeId == x.nodeId {
      i := j;
    } else {
      i := PolicyWasTargets(resolve, s, actions[..j], id);
      assert actions[..j][..i] == actions[..i];
    }
  }

  lemma JudgedInLonger(resolve: Resolver, s: State, actions: seq<Action>, n: nat, i: nat, j: nat, id: OpId,
                       x: LocalizedResource, y: LocalizedResource)
    requires n <= |actions| && Judged(resolve, s, actions[..n], i, j, id, x, y)
    ensures Judged(resolve, s, actions, i, j, id, x, y)
  {
    assert actions[..n][..j] == actions[..j] && actions[..n][..i] == actions[..i];
    if k: nat :| j < k && ConsentedAt(resolve, s, actions[..n], k, id, x) {
      assert actions[..n][..k] == actions[..k];
      assert ConsentedAt(resolve, s, actions, k, id, x);
    }
  }

  /** A request that nobody is asked about any more was judged, if it is past the node of the reference. */
  lemma PastWasJudged(resolve: Resolver, s: State, actions: seq<Action>, id: OpId,
                      x: LocalizedResource, y: LocalizedResource)
    returns (i: nat, j: nat)
    requires Initial(s) && Admissible(resolve, actions) && !x.resource.IsStream()
    requires Past(resolve, Exec(resolve, s, actions), id, x, y)
    requires Exec(resolve, s, actions).ops[id].asking == map[]
    ensures Judged(resolve, s, actions, i, j, id, x, y)
  {
    j := PastWasEvaluated(resolve, s, actions, id, x, y);
    i := EvaluationIsJudgement(resolve, s, actions, j, id, x, y);
  }

  /** Complete mediation: in every run, whatever operators do, each reference of `y` beyond itself passed the rules
      against `y` in an evaluation by its own node for a request to `y`, and its owner consented if that was
      enforced. */
  lemma {:induction false} EveryReferenceWasJudged(resolve: Resolver, s: State, actions: seq<Action>,
                                                   x: LocalizedResource, y: LocalizedResource)
    requires Initial(s) && Admissible(resolve, actions)
    requires x in ProvOf(Exec(resolve, s, actions), y)
    ensures x == y || exists i: nat, j: nat, id :: Judged(resolve, s, actions, i, j, id, x, y)
    decreases |actions|
  {
    InitialInv(resolve, s);
    if actions != [] {
      var n := |actions| - 1;
      var before, a := LastAction(resolve, s, actions);
      RecordingEffect(resolve, before, a);
      if x in ProvOf(before, y) {
        EveryReferenceWasJudged(resolve, s, actions[..n], x, y);
        if i: nat, j: nat, id :| Judged(resolve, s, actions[..n], i, j, id, x, y) {
          JudgedInLonger(resolve, s, actions, n, i, j, id, x, y);
        }
      } else {
        RecordedFlow(resolve, before, a);
        ReferencesAreNoStreams(resolve, s, actions, x, y);
        var i, j := PastWasJudged(resolve, s, actions[..n], a.id, x, y);
        JudgedInLonger(resolve, s, actions, n, i, j, a.id, x, y);
      }
    }
  }

  lemma {:induction false} ReferencesAreNoStreams(resolve: Resolver, s: State, actions: seq<Action>,
                                                  x: LocalizedResource, y: LocalizedResource)
    requires Initial(s) && Admissible(resolve, actions)
    requires x in ProvOf(Exec(resolve, s, actions), y)
    ensures !x.resource.IsStream()
    decreases |actions|
  {
    InitialInv(resolve, s);
    if actions != [] {
      var before, a := LastAction(resolve, s, actions);
      RecordingEffect(resolve, before, a);
      if x in ProvOf(before, y) {
        ReferencesAreNoStreams(resolve, s, actions[..|actions| - 1], x, y);
      } else {
        ReferencesAreNoStreams(resolve, s, actions[..|actions| - 1], x, Recorded(resolve, before, a).value.source);
      }
    }
  }
}

/**
 The main results, for every run of the protocol from an initial state: any
 number of nodes and requests, any interleaving, any failures of remote calls.
 */
module Theorems {
  import opened Wrappers
  import opened Naming
  import opened Protocol
  import opened Ownership
  import opened Recording
  import opened Labels
  import opened Deletion
  import Sequencer
  import Provenance
  import Compliance

  // ---------------------------------------------------------------- reservations

  /** Every entry of every reservation table belongs to exactly one request, and every request holds its entries. */
  lemma ReservationsAreOwned(resolve: Resolver, s: State, actions: seq<Action>, x: LocalizedResource, v: Resource)
    requires Initial(s) && Admissible(resolve, actions)
    ensures var t := Exec(resolve, s, actions);
            && (Held(t, x) == Some(v) <==> exists id :: Claims(resolve, t, id, x, v))
            && (forall i, j :: Claims(resolve, t, i, x, v) && Claims(resolve, t, j, x, v) ==> i == j)
  {
    InitialInv(resolve, s);
    RunsKeepInv(resolve, s, actions);
  }

  /** Whoever has a grant holds its own destination, and for a stream the peer's end as well. */
  lemma GrantsHoldBothEnds(resolve: Resolver, s: State, actions: seq<Action>, id: OpId)
    requires Initial(s) && Admissible(resolve, actions)
    ensures var t := Exec(resolve, s, actions);
            id in t.ops && (t.ops[id].phase.Granted? || t.ops[id].phase.Reporting? || t.ops[id].phase.Sending?) ==>
              && Held(t, t.ops[id].Own()) == Some(t.ops[id].source)
              && (t.ops[id].destination.IsStream() ==> Held(t, t.ops[id].Target(resolve)) == Some(Null))
  {
    InitialInv(resolve, s);
    RunsKeepInv(resolve, s, actions);
    var t := Exec(resolve, s, actions);
    if id in t.ops && (t.ops[id].phase.Granted? || t.ops[id].phase.Reporting? || t.ops[id].phase.Sending?) {
      assert Claims(resolve, t, id, t.ops[id].Own(), t.ops[id].source);
      if t.ops[id].destination.IsStream() {
        assert Claims(resolve, t, id, t.ops[id].Target(resolve), Null);
      }
    }
  }

  /** A denied request goes on holding what it reserved at the peer. */
  ghost predicate Orphaned(s: State, id: OpId) {
    id in s.ops && s.ops[id].hold && (s.ops[id].phase.Refused? || s.ops[id].phase.Aborted?)
  }

  /** No action moves a request on from there, but the release of a denied one. */
  predicate AtRest(phase: Phase) {
    phase.Undelivered? || phase.Leaked? || phase.Refused? || phase.Aborted?
  }

  lemma FetchFindsRest(resolve: Resolver, s: State, id: OpId)
    requires id in s.ops && AtRest(s.ops[id].phase)
    ensures DoReservePeer(resolve, s, id) == s && DoPeerPolicy(resolve, s, id) == s && DoNoPeerPolicy(s, id) == s
    ensures DoCollect(s, id) == s && DoResolvePolicy(s, id) == s && DoRemoteFailure(s, id) == s
  {
  }

  lemma CheckFindsRest(resolve: Resolver, s: State, id: OpId, n: NodeId, consenting: set<Resource>)
    requires id in s.ops && AtRest(s.ops[id].phase)
    ensures DoCheckLocal(resolve, s, id) == s && DoConsentLocal(s, id, consenting) == s
    ensures DoCheckRemote(resolve, s, id, n) == s && DoConsentRemote(s, id, n, consenting) == s
  {
  }

  lemma ReportFindsRest(resolve: Resolver, s: State, id: OpId)
    requires id in s.ops && AtRest(s.ops[id].phase)
    ensures DoReport(s, id) == s && DoReadSource(resolve, s, id) == s && DoDeliveryFailure(s, id) == s
    ensures DoRecord(resolve, s, id) == s && DoDeliver(resolve, s, id) == s && DoReleasePeer(resolve, s, id) == s
    ensures s.ops[id].phase.Refused? || DoRelease(s, id) == s
  {
  }

  lemma RestStays(resolve: Resolver, s: State, a: Action, id: OpId)
    requires id in s.ops && AtRest(s.ops[id].phase) && ActsOn(a, id)
    requires a.Release? ==> !s.ops[id].phase.Refused?
    ensures Next(resolve, s, a) == s
  {
    FetchFindsRest(resolve, s, id);
    ReportFindsRest(resolve, s, id);
    CheckFindsRest(resolve, s, id, if a.CheckRemote? || a.ConsentRemote? then a.node else "",
                   if a.ConsentLocal? || a.ConsentRemote? then a.consenting else {});
  }

  lemma OrphanStays(resolve: Resolver, s: State, a: Action, id: OpId)
    requires Inv(resolve, s) && Orphaned(s, id)
    ensures Orphaned(Next(resolve, s, a), id)
    ensures Next(resolve, s, a).ops[id].Target(resolve) == s.ops[id].Target(resolve)
  {
    if !ActsOn(a, id) {
      OthersUntouched(resolve, s, a, id);
    } else if !a.Release? || s.ops[id].phase.Aborted? {
      RestStays(resolve, s, a, id);
    }
  }

  /** After a denial the peer's end of the stream can never be read or written again. */
  lemma {:induction false} DenialBlocksPeerForever(resolve: Resolver, s: State, actions: seq<Action>,
                                                   id: OpId, r: Resource)
    requires Inv(resolve, s) && Admissible(resolve, actions) && Orphaned(s, id)
    ensures var t, target := Exec(resolve, s, actions), s.ops[id].Target(resolve);
            && Held(t, target) == Some(Null)
            && target.nodeId in t.nodes
            && !Sequencer.MayReserve(t.nodes[target.nodeId].flows, target.resource, r)
            && !Sequencer.MayReserve(t.nodes[target.nodeId].flows, r, target.resource)
    decreases |actions|
  {
    if actions == [] {
      assert Claims(resolve, s, id, s.ops[id].Target(resolve), Null);
    } else {
      RunsKeepInv(resolve, s, [actions[0]]);
      assert Exec(resolve, s, [actions[0]]) == Next(resolve, s, actions[0]);
      OrphanStays(resolve, s, actions[0], id);
      DenialBlocksPeerForever(resolve, Next(resolve, s, actions[0]), actions[1..], id, r);
    }
  }

  lemma UndeliveredIsIdle(resolve: Resolver, s: State, a: Action, id: OpId)
    requires Shape(resolve, s) && In(s, id, Undelivered)
    ensures id in Next(resolve, s, a).ops && Next(resolve, s, a).ops[id] == s.ops[id]
  {
    if ActsOn(a, id) {
      RestStays(resolve, s, a, id);
    } else {
      OthersUntouched(resolve, s, a, id);
    }
  }

  /** A report that could not be delivered spends its grant: in every later state both ends of the stream are still
      reserved for it. */
  lemma {:induction false} FailedReportBlocksForever(resolve: Resolver, s: State, actions: seq<Action>, id: OpId)
    requires Inv(resolve, s) && Admissible(resolve, actions) && In(s, id, Undelivered)
    ensures var t := Exec(resolve, s, actions);
            && In(t, id, Undelivered) && t.ops[id] == s.ops[id]
            && Held(t, s.ops[id].Own()) == Some(s.ops[id].source)
            && Held(t, s.ops[id].Target(resolve)) == Some(Null)
    decreases |actions|
  {
    if actions == [] {
      assert Claims(resolve, s, id, s.ops[id].Own(), s.ops[id].source);
      assert Claims(resolve, s, id, s.ops[id].Target(resolve), Null);
    } else {
      RunsKeepInv(resolve, s, [actions[0]]);
      assert Exec(resolve, s, [actions[0]]) == Next(resolve, s, actions[0]);
      UndeliveredIsIdle(resolve, s, actions[0], id);
      FailedReportBlocksForever(resolve, Next(resolve, s, actions[0]), actions[1..], id);
    }
  }

  // ---------------------------------------------------------------- what is recorded

  lemma {:induction false} EndedStays(resolve: Resolver, s: State, actions: seq<Action>, id: OpId)
    requires Inv(resolve, s) && Admissible(resolve, actions) && id in s.ops
    ensures id in Exec(resolve, s, actions).ops
    ensures Exec(resolve, s, actions).ops[id].Source() == s.ops[id].Source()
    ensures Exec(resolve, s, actions).ops[id].Live() ==> s.ops[id].Live()
    decreases |actions|
  {
    if actions != [] {
      RunsKeepInv(resolve, s, [actions[0]]);
      assert Exec(resolve, s, [actions[0]]) == Next(resolve, s, actions[0]);
      SourceIsKept(resolve, s, actions[0], id);
      EndedStays(resolve, Next(resolve, s, actions[0]), actions[1..], id);
    }
  }

  /** From its reservation until its release, whatever happens on any node, the references
      of the source of a request stay what they were. */
  lemma {:induction false} SourceIsStableOverRuns(resolve: Resolver, s: State, actions: seq<Action>, id: OpId)
    requires Inv(resolve, s) && Admissible(resolve, actions) && id in s.ops
    requires id in Exec(resolve, s, actions).ops && Exec(resolve, s, actions).ops[id].Live()
    ensures ProvOf(Exec(resolve, s, actions), s.ops[id].Source()) == ProvOf(s, s.ops[id].Source())
    decreases |actions|
  {
    EndedStays(resolve, s, actions, id);
    if actions != [] {
      RunsKeepInv(resolve, s, [actions[0]]);
      assert Exec(resolve, s, [actions[0]]) == Next(resolve, s, actions[0]);
      SourceIsStable(resolve, s, actions[0], id);
      SourceIsKept(resolve, s, actions[0], id);
      SourceIsStableOverRuns(resolve, Next(resolve, s, actions[0]), actions[1..], id);
    }
  }

  ghost predicate StoresAreAccumulated(s: State) {
    forall y :: ProvOf(s, y) == Provenance.Accumulated(s.history, y)
  }

  lemma AccumulationIsKeptAt(resolve: Resolver, s: State, a: Action, y: LocalizedResource)
    requires Inv(resolve, s) && StoresAreAccumulated(s)
    ensures ProvOf(Next(resolve, s, a), y) == Provenance.Accumulated(Next(resolve, s, a).history, y)
  {
    RecordingEffect(resolve, s, a);
    if Recorded(resolve, s, a).Some? {
      var flow := Recorded(resolve, s, a).value;
      assert ProvOf(s, flow.source) == Provenance.Accumulated(s.history, flow.source);
      Provenance.AccumulatedOneMore(s.history, flow, y);
    } else {
      assert s.history + [] == s.history;
    }
  }

  lemma AccumulationIsKept(resolve: Resolver, s: State, a: Action)
    requires Inv(resolve, s) && StoresAreAccumulated(s)
    ensures StoresAreAccumulated(Next(resolve, s, a))
  {
    forall y
      ensures ProvOf(Next(resolve, s, a), y) == Provenance.Accumulated(Next(resolve, s, a).history, y)
    {
      AccumulationIsKeptAt(resolve, s, a, y);
    }
  }

  lemma {:induction false} RunsAccumulate(resolve: Resolver, s: State, actions: seq<Action>)
    requires Inv(resolve, s) && StoresAreAccumulated(s) && Admissible(resolve, actions)
    ensures StoresAreAccumulated(Exec(resolve, s, actions))
    decreases |actions|
  {
    if actions != [] {
      RunsKeepInv(resolve, s, [actions[0]]);
      assert Exec(resolve, s, [actions[0]]) == Next(resolve, s, actions[0]);
      AccumulationIsKept(resolve, s, actions[0]);
      RunsAccumulate(resolve, Next(resolve, s, actions[0]), actions[1..]);
    }
  }

  /** The references of a resource are exactly its ancestors along the recorded flows, across nodes and through
      streams. */
  lemma ProvenanceIsExact(resolve: Resolver, s: State, actions: seq<Action>, x: LocalizedResource, y: LocalizedResource)
    requires Initial(s) && Admissible(resolve, actions)
    ensures var t := Exec(resolve, s, actions);
            x in ProvOf(t, y) <==> Provenance.Ancestor(t.history, x, y)
  {
    InitialInv(resolve, s);
    RunsAccumulate(resolve, s, actions);
    Provenance.AccumulatedIsAncestry(Exec(resolve, s, actions).history, x, y);
  }

  // ---------------------------------------------------------------- confidentiality and integrity

  lemma InitialLabels(resolve: Resolver, s: State)
    requires Initial(s)
    ensures LabelInv(resolve, s)
  {
  }

  /** No chain of recorded flows leads from a secret to a public resource, or from a less to a more trusted one. */
  lemma NoChainWritesDown(resolve: Resolver, s: State, actions: seq<Action>, x: LocalizedResource, y: LocalizedResource)
    requires Initial(s) && Admissible(resolve, actions)
    requires forall a :: a in actions ==> !Relabels(a)
    ensures var t := Exec(resolve, s, actions);
            Provenance.Ancestor(t.history, x, y) ==> MayFlow(PolicyOf(t, x), PolicyOf(t, y))
  {
    InitialInv(resolve, s);
    InitialLabels(resolve, s);
    RunsKeepLabelInv(resolve, s, actions);
    ProvenanceIsExact(resolve, s, actions, x, y);
  }

  // ---------------------------------------------------------------- deletion

  /** A request that has not passed the node of a deleted `x` never passes it, and so is never granted, if it
      reads anything derived from `x`; whatever other requests are under way. */
  lemma {:induction false} DeletionBarsRequest(resolve: Resolver, s: State, actions: seq<Action>, id: OpId,
                                               x: LocalizedResource)
    requires Inv(resolve, s) && Admissible(resolve, actions)
    requires PolicyOf(s, x).IsDeleted() && !x.resource.IsStream() && RequestBarred(s, id, x)
    ensures RequestBarred(Exec(resolve, s, actions), id, x)
    decreases |actions|
  {
    if actions != [] {
      RunsKeepInv(resolve, s, [actions[0]]);
      assert Exec(resolve, s, [actions[0]]) == Next(resolve, s, actions[0]);
      DeletedIsKept(resolve, s, actions[0], x);
      RequestStaysBarred(resolve, s, actions[0], id, x);
      DeletionBarsRequest(resolve, Next(resolve, s, actions[0]), actions[1..], id, x);
    }
  }

  /** The `k`-th action of the run is the operator's deletion of `x` on its node. */
  ghost predicate DeletesAt(resolve: Resolver, s: State, actions: seq<Action>, k: nat, x: LocalizedResource) {
    && k < |actions| && actions[k] == Operate(x.nodeId, Compliance.SetDeleted(x.resource))
    && !x.resource.IsStream() && x.nodeId in Exec(resolve, s, actions[..k]).nodes
  }

  lemma DeletionSplitsRun(resolve: Resolver, s: State, actions: seq<Action>, k: nat, x: LocalizedResource)
    returns (m: State, d: State)
    requires Initial(s) && Admissible(resolve, actions) && DeletesAt(resolve, s, actions, k, x)
    ensures m == Exec(resolve, s, actions[..k]) && Inv(resolve, m)
    ensures Exec(resolve, s, actions) == Exec(resolve, d, actions[k + 1..]) && Inv(resolve, d)
    ensures PolicyOf(d, x).IsDeleted() && d.ops == m.ops
    ensures forall y :: ProvOf(d, y) == ProvOf(m, y)
  {
    var a := actions[k];
    InitialInv(resolve, s);
    RunsKeepInv(resolve, s, actions[..k]);
    m := Exec(resolve, s, actions[..k]);
    d := DoOperate(m, x.nodeId, a.update);
    RunsKeepInv(resolve, m, [a]);
    assert Exec(resolve, m, [a]) == d;
    ExecInTurn(resolve, s, actions[..k], [a]);
    ExecInTurn(resolve, s, actions[..k] + [a], actions[k + 1..]);
    assert actions[..k] + [a] + actions[k + 1..] == actions;
  }

  /** The operator deletes `x` on its node at any moment of any run: every request that was not in flight past
      that node by then, or starts later, is denied whatever is derived from `x` at the time. */
  lemma DeletionRefusesLateRequests(resolve: Resolver, s: State, actions: seq<Action>, k: nat,
                                    x: LocalizedResource, id: OpId)
    requires Initial(s) && Admissible(resolve, actions) && DeletesAt(resolve, s, actions, k, x)
    requires RequestBarred(Exec(resolve, s, actions[..k]), id, x)
    ensures var t := Exec(resolve, s, actions);
            id in t.ops && t.ops[id].Live() && x in ProvOf(t, t.ops[id].Source()) ==>
              !t.ops[id].phase.Granted? && !t.ops[id].phase.Reporting? && !t.ops[id].phase.Sending?
  {
    var m, d := DeletionSplitsRun(resolve, s, actions, k, x);
    DeletionBarsRequest(resolve, d, actions[k + 1..], id, x);
  }

  /** Containment: whatever becomes derived from a deleted `x` is the target of a request that was
      already past the node of `x` at the deletion. */
  lemma {:induction false} DeletionContains(resolve: Resolver, s: State, actions: seq<Action>,
                                            x: LocalizedResource, y: LocalizedResource)
    requires Inv(resolve, s) && Admissible(resolve, actions)
    requires PolicyOf(s, x).IsDeleted() && !x.resource.IsStream()
    ensures var t := Exec(resolve, s, actions);
            && PolicyOf(t, x) == PolicyOf(s, x)
            && (x in ProvOf(s, y) ==> x in ProvOf(t, y))
            && (x in ProvOf(t, y) && x !in ProvOf(s, y) ==> exists id :: InFlight(resolve, s, id, x, y))
    decreases |actions|
  {
    if actions != [] {
      var a := actions[0];
      var s' := Next(resolve, s, a);
      RunsKeepInv(resolve, s, [a]);
      assert Exec(resolve, s, [a]) == s';
      DeletedIsKept(resolve, s, a, x);
      DescendantsAreInFlight(resolve, s, a, x, y);
      DeletionContains(resolve, s', actions[1..], x, y);
      if id :| InFlight(resolve, s', id, x, y) {
        InFlightWasInFlight(resolve, s, a, id, x, y);
      }
    }
  }

  /** The operator deletes `x` on its node at any moment of any run: from then on it stays deleted, what is
      derived from it stays so, and only the targets of requests past that node at the deletion are added. */
  lemma DeletionCascade(resolve: Resolver, s: State, actions: seq<Action>, k: nat,
                        x: LocalizedResource, y: LocalizedResource)
    requires Initial(s) && Admissible(resolve, actions) && DeletesAt(resolve, s, actions, k, x)
    ensures var m, t := Exec(resolve, s, actions[..k]), Exec(resolve, s, actions);
            && PolicyOf(t, x).IsDeleted()
            && (x in ProvOf(m, y) ==> x in ProvOf(t, y))
            && (x in ProvOf(t, y) && x !in ProvOf(m, y) ==> exists id :: InFlight(resolve, m, id, x, y))
  {
    var m, d := DeletionSplitsRun(resolve, s, actions, k, x);
    DeletionContains(resolve, d, actions[k + 1..], x, y);
    if id :| InFlight(resolve, d, id, x, y) {
      assert InFlight(resolve, m, id, x, y);
    }
  }

  /** With no request in flight at the deletion, exactly what was derived from `x` then is derived from it for
      good, and no request for any of it holds a grant. */
  lemma DeletionSeals(resolve: Resolver, s: State, actions: seq<Action>, k: nat,
                      x: LocalizedResource, y: LocalizedResource, id: OpId)
    requires Initial(s) && Admissible(resolve, actions) && DeletesAt(resolve, s, actions, k, x)
    requires Barred(Exec(resolve, s, actions[..k]), x)
    ensures var m, t := Exec(resolve, s, actions[..k]), Exec(resolve, s, actions);
            && (x in ProvOf(t, y) <==> x in ProvOf(m, y))
            && (id in t.ops && t.ops[id].Live() && x in ProvOf(t, t.ops[id].Source()) ==>
                  !t.ops[id].phase.Granted? && !t.ops[id].phase.Reporting? && !t.ops[id].phase.Sending?)
  {
    var m := Exec(resolve, s, actions[..k]);
    DeletionCascade(resolve, s, actions, k, x, y);
    assert id in m.ops ==> RequestBarred(m, id, x);
    DeletionRefusesLateRequests(resolve, s, actions, k, x, id);
  }
}

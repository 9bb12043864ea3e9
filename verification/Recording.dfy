/**
 What gets recorded: the references of a source do not change while a request
 that reads it is alive, so the references recorded at the destination are those
 that were checked.
 */
module Recording {
  import opened Wrappers
  import opened Naming
  import opened Protocol
  import opened Ownership
  import Provenance

  ghost predicate Inv(resolve: Resolver, s: State) {
    Shape(resolve, s) && Locks(resolve, s) && Snapshots(s)
  }

  predicate HasRefs(phase: Phase) {
    phase.Collected? || Passed(phase) || phase.Closing?
  }

  /** The references a request was checked on are still those of its source, and so are those it sends. */
  ghost predicate Snapshots(s: State) {
    forall id :: id in s.ops ==>
      && (HasRefs(s.ops[id].phase) ==> s.ops[id].refs == ProvOf(s, s.ops[id].Source()))
      && (s.ops[id].phase.Sending? ==> s.ops[id].sent == s.ops[id].refs)
  }

  /** The flow that an action records, if it records one. */
  function Recorded(resolve: Resolver, s: State, a: Action): Option<Provenance.Flow> {
    if a.Record? && DoRecord(resolve, s, a.id) != s then
      Some(Provenance.Flow(s.ops[a.id].Source(), s.ops[a.id].Target(resolve)))
    else if a.Deliver? && DoDeliver(resolve, s, a.id) != s then
      Some(Provenance.Flow(s.ops[a.id].Source(), s.ops[a.id].Target(resolve)))
    else None
  }

  /** The references that recording `flow` adds to `y`. */
  ghost function Added(s: State, flow: Option<Provenance.Flow>, y: LocalizedResource): References {
    if flow.Some? && flow.value.destination == y then ProvOf(s, flow.value.source) else {}
  }

  lemma RecordEffect(resolve: Resolver, s: State, id: OpId)
    requires Inv(resolve, s) && DoRecord(resolve, s, id) != s
    ensures s.ops[id].Target(resolve) == s.ops[id].Own()
    ensures Held(s, s.ops[id].Target(resolve)).Some?
    ensures forall y :: ProvOf(DoRecord(resolve, s, id), y)
                     == ProvOf(s, y) + (if y == s.ops[id].Own() then ProvOf(s, s.ops[id].Source()) else {})
  {
    var op := s.ops[id];
    assert Claims(resolve, s, id, op.Own(), op.source);
  }

  lemma DeliverEffect(resolve: Resolver, s: State, id: OpId)
    requires Inv(resolve, s) && DoDeliver(resolve, s, id) != s
    ensures Held(s, s.ops[id].Target(resolve)).Some?
    ensures forall y :: ProvOf(DoDeliver(resolve, s, id), y)
                     == ProvOf(s, y) + (if y == s.ops[id].Target(resolve) then ProvOf(s, s.ops[id].Source()) else {})
  {
    var op := s.ops[id];
    assert Claims(resolve, s, id, op.Target(resolve), Null);
  }

  lemma PrivateRecordsNothing(resolve: Resolver, s: State, a: Action)
    requires Shape(resolve, s) && Private(a)
    ensures Next(resolve, s, a).history == s.history
    ensures forall y :: ProvOf(Next(resolve, s, a), y) == ProvOf(s, y)
  {
    PrivateIsPrivate(resolve, s, a);
  }

  lemma TablesRecordNothing(resolve: Resolver, s: State, a: Action)
    requires Shape(resolve, s) && (MovesReservations(a) || a.Enrol? || a.Operate?)
    ensures Next(resolve, s, a).history == s.history
    ensures forall y :: ProvOf(Next(resolve, s, a), y) == ProvOf(s, y)
  {
  }

  /** A flow is recorded for a checked request and a reserved destination. */
  lemma RecordedFlow(resolve: Resolver, s: State, a: Action)
    requires Inv(resolve, s) && Recorded(resolve, s, a).Some?
    ensures var flow := Recorded(resolve, s, a).value;
            && a.id in s.ops && (s.ops[a.id].phase.Reporting? || s.ops[a.id].phase.Sending?)
            && flow.source == s.ops[a.id].Source()
            && flow.destination == s.ops[a.id].Target(resolve)
            && s.ops[a.id].refs == ProvOf(s, flow.source)
            && Held(s, flow.destination).Some?
  {
    if a.Record? {
      RecordEffect(resolve, s, a.id);
    } else {
      DeliverEffect(resolve, s, a.id);
    }
  }

  /** Only recording a flow changes history and references, and it adds those of the source to the destination. */
  lemma RecordingEffect(resolve: Resolver, s: State, a: Action)
    requires Inv(resolve, s)
    ensures Next(resolve, s, a).history
         == s.history + (if Recorded(resolve, s, a).Some? then [Recorded(resolve, s, a).value] else [])
    ensures forall y :: ProvOf(Next(resolve, s, a), y) == ProvOf(s, y) + Added(s, Recorded(resolve, s, a), y)
  {
    if a.Record? {
      if DoRecord(resolve, s, a.id) != s { RecordEffect(resolve, s, a.id); }
    } else if a.Deliver? {
      if DoDeliver(resolve, s, a.id) != s { DeliverEffect(resolve, s, a.id); }
    } else if Private(a) {
      PrivateRecordsNothing(resolve, s, a);
    } else {
      TablesRecordNothing(resolve, s, a);
    }
  }

  /** From reservation to release, no action anywhere changes the references of the source. */
  lemma SourceIsStable(resolve: Resolver, s: State, a: Action, id: OpId)
    requires Inv(resolve, s) && id in s.ops && s.ops[id].Live()
    ensures ProvOf(Next(resolve, s, a), s.ops[id].Source()) == ProvOf(s, s.ops[id].Source())
  {
    RecordingEffect(resolve, s, a);
    if Recorded(resolve, s, a).Some? {
      RecordedFlow(resolve, s, a);
    }
    var op := s.ops[id];
    assert Claims(resolve, s, id, op.Own(), op.source);
    assert Held(s, op.Own()) == Some(op.source);
    assert Held(s, op.Source()).None?;
  }

  /** A request carries references only from reading its live source, and keeps what it read. */
  ghost predicate CarriesSource(s: State, s': State, id: OpId)
    requires id in s'.ops
  {
    HasRefs(s'.ops[id].phase) ==>
      && id in s.ops && s.ops[id].Live()
      && s'.ops[id].Source() == s.ops[id].Source()
      && s'.ops[id].refs == ProvOf(s, s.ops[id].Source())
      && (s'.ops[id].phase.Sending? ==> s'.ops[id].sent == s'.ops[id].refs)
  }

  lemma CollectCarries(resolve: Resolver, s: State, id: OpId)
    requires Inv(resolve, s) && id in s.ops
    ensures CarriesSource(s, DoCollect(s, id), id)
    ensures CarriesSource(s, DoRemoteFailure(s, id), id)
  {
  }

  lemma CheckCarries(resolve: Resolver, s: State, id: OpId, n: NodeId)
    requires Inv(resolve, s) && id in s.ops
    ensures CarriesSource(s, DoCheckLocal(resolve, s, id), id)
    ensures CarriesSource(s, DoCheckRemote(resolve, s, id, n), id)
  {
  }

  lemma ConsentCarries(resolve: Resolver, s: State, id: OpId, n: NodeId, consenting: set<Resource>)
    requires Inv(resolve, s) && id in s.ops
    ensures CarriesSource(s, DoConsentLocal(s, id, consenting), id)
    ensures CarriesSource(s, DoConsentRemote(s, id, n, consenting), id)
  {
  }

  lemma PolicyCarries(resolve: Resolver, s: State, id: OpId)
    requires Inv(resolve, s) && id in s.ops
    ensures CarriesSource(s, DoPeerPolicy(resolve, s, id), id)
    ensures CarriesSource(s, DoNoPeerPolicy(s, id), id)
    ensures CarriesSource(s, DoResolvePolicy(s, id), id)
  {
  }

  lemma ReportCarries(resolve: Resolver, s: State, id: OpId)
    requires Inv(resolve, s) && id in s.ops
    ensures CarriesSource(s, DoReport(s, id), id)
    ensures CarriesSource(s, DoReadSource(resolve, s, id), id)
    ensures CarriesSource(s, DoDeliveryFailure(s, id), id)
  {
  }

  lemma RecordCarries(resolve: Resolver, s: State, id: OpId)
    requires Inv(resolve, s) && id in s.ops
    ensures CarriesSource(s, DoRecord(resolve, s, id), id)
    ensures CarriesSource(s, DoDeliver(resolve, s, id), id)
  {
  }

  lemma ReserveCarries(resolve: Resolver, s: State, id: OpId)
    requires Inv(resolve, s) && id in s.ops
    ensures CarriesSource(s, DoReservePeer(resolve, s, id), id)
    ensures CarriesSource(s, DoReleasePeer(resolve, s, id), id)
    ensures CarriesSource(s, DoRelease(s, id), id)
  {
  }

  lemma RequestCarries(resolve: Resolver, s: State, id: OpId, n: NodeId, key: (int, int), output: bool)
    requires Inv(resolve, s)
    ensures id in DoRequest(s, id, n, key, output).ops ==> CarriesSource(s, DoRequest(s, id, n, key, output), id)
  {
  }

  lemma EvaluationCarries(resolve: Resolver, s: State, a: Action, id: OpId)
    requires Inv(resolve, s) && id in s.ops && ActsOn(a, id)
    requires a.CheckLocal? || a.CheckRemote? || a.ConsentLocal? || a.ConsentRemote?
    ensures id in Next(resolve, s, a).ops && CarriesSource(s, Next(resolve, s, a), id)
  {
    match a
    case CheckLocal(_) => CheckCarries(resolve, s, id, "");
    case CheckRemote(_, n) => CheckCarries(resolve, s, id, n);
    case ConsentLocal(_, consenting) => ConsentCarries(resolve, s, id, "", consenting);
    case ConsentRemote(_, n, consenting) => ConsentCarries(resolve, s, id, n, consenting);
  }

  lemma ActionCarries(resolve: Resolver, s: State, a: Action, id: OpId)
    requires Inv(resolve, s) && ActsOn(a, id) && id in Next(resolve, s, a).ops
    ensures CarriesSource(s, Next(resolve, s, a), id)
  {
    if a.Request? {
      RequestCarries(resolve, s, id, a.node, (a.pid, a.descriptor), a.output);
    } else if a.CheckLocal? || a.CheckRemote? || a.ConsentLocal? || a.ConsentRemote? {
      EvaluationCarries(resolve, s, a, id);
    } else if a.Collect? || a.RemoteFailure? {
      CollectCarries(resolve, s, id);
    } else if a.PeerPolicy? || a.NoPeerPolicy? || a.ResolvePolicy? {
      PolicyCarries(resolve, s, id);
    } else if a.Report? || a.ReadSource? || a.DeliveryFailure? {
      ReportCarries(resolve, s, id);
    } else if a.Record? || a.Deliver? {
      RecordCarries(resolve, s, id);
    } else {
      ReserveCarries(resolve, s, id);
    }
  }

  predicate ActsOn(a: Action, id: OpId) {
    !a.Enrol? && !a.Operate? && a.id == id
  }

  /** No action touches the record of a request other than its own. */
  lemma OthersUntouched(resolve: Resolver, s: State, a: Action, id: OpId)
    requires Shape(resolve, s) && !ActsOn(a, id)
    ensures id in Next(resolve, s, a).ops <==> id in s.ops
    ensures id in s.ops ==> Next(resolve, s, a).ops[id] == s.ops[id]
  {
    if Private(a) {
      PrivateIsPrivate(resolve, s, a);
    }
  }

  lemma SnapshotsAreKept(resolve: Resolver, s: State, a: Action)
    requires Inv(resolve, s)
    ensures Snapshots(Next(resolve, s, a))
  {
    var s' := Next(resolve, s, a);
    forall id | id in s'.ops
      ensures HasRefs(s'.ops[id].phase) ==> s'.ops[id].refs == ProvOf(s', s'.ops[id].Source())
      ensures s'.ops[id].phase.Sending? ==> s'.ops[id].sent == s'.ops[id].refs
    {
      if !ActsOn(a, id) {
        OthersUntouched(resolve, s, a, id);
      } else {
        ActionCarries(resolve, s, a, id);
      }
      assert CarriesSource(s, s', id);
      if HasRefs(s'.ops[id].phase) {
        SourceIsStable(resolve, s, a, id);
      }
    }
  }

  lemma {:induction false} RunsKeepInv(resolve: Resolver, s: State, actions: seq<Action>)
    requires Inv(resolve, s) && Admissible(resolve, actions)
    ensures Inv(resolve, Exec(resolve, s, actions))
    decreases |actions|
  {
    if actions != [] {
      var a := actions[0];
      ShapeIsKept(resolve, s, a);
      LocksAreKept(resolve, s, a);
      SnapshotsAreKept(resolve, s, a);
      RunsKeepInv(resolve, Next(resolve, s, a), actions[1..]);
    }
  }

  lemma InitialInv(resolve: Resolver, s: State)
    requires Initial(s)
    ensures Inv(resolve, s)
  {
  }
}

/**
 Streams whose two ends live on one node. The error of a failed request to the
 peer is dropped; on another node that denies the flow, on the own node it does
 not, and the flow is then granted without a reservation of the peer's end.
 */
module SameNode {
  import opened Wrappers
  import opened Naming
  import opened Protocol
  import Provenance
  import Compliance

  /** Whether a flow to a stream meets the rules of its own node although the peer was not reserved:
      exactly if the peer is on that very node and the rules allow it. */
  lemma PassesWithoutPeerExactly(resolve: Resolver, s: State, id: OpId)
    requires In(s, id, Collected) && s.ops[id].destination.IsStream() && s.ops[id].policy.None?
    ensures !DoCheckLocal(resolve, s, id).ops[id].phase.Refused?
       <==> (&& s.ops[id].Target(resolve).nodeId == s.ops[id].node
             && forall x :: x in s.ops[id].refs && x.nodeId == s.ops[id].node && !x.resource.IsStream() ==>
                  Compliance.RulesPass(PolicyOf(s, x), PolicyOf(s, s.ops[id].Target(resolve))))
  {
    var op := s.ops[id];
    forall x | x in op.refs && x.nodeId == op.node
      ensures x.resource in Provenance.RefsAt(op.refs, op.node)
    {
    }
    forall r | r in Provenance.RefsAt(op.refs, op.node)
      ensures LocalizedResource(op.node, r) in op.refs
    {
    }
  }

  const ONE_NODE := "10.0.0.1"
  const HERE := Descriptor(Stream("10.0.0.1:1", "10.0.0.1:2"))
  const THERE := Descriptor(Stream("10.0.0.1:2", "10.0.0.1:1"))
  const READER := Process(2, 0, "")
  const WRITER := Process(1, 0, "")

  function OneNode(socket: string): Option<NodeId> {
    Some(ONE_NODE)
  }

  const START := State(map[ONE_NODE := Node(map[], map[], map[], map[])], map[], [])

  /** One process reads an end of the stream; another, whose request to reserve that end fails because
      of the reader, writes the other end. */
  const RUN := [
    Enrol(ONE_NODE, 2, 3, 0, "", THERE.fd),
    Request(0, ONE_NODE, 2, 3, false),
    NoPeerPolicy(0),
    Collect(0),
    Enrol(ONE_NODE, 1, 3, 0, "", HERE.fd),
    Request(1, ONE_NODE, 1, 3, true),
    NoPeerPolicy(1),
    Collect(1),
    CheckLocal(1),
    ConsentLocal(1, {}),
    Report(1),
    ReadSource(1)]

  const READING := Op(ONE_NODE, THERE, READER, Collected, false, None, {}, {}, map[], {})

  const READER_NODE := Node(map[(2, 3) := (READER, THERE)], map[READER := THERE], map[], map[])

  /** The writing request after so many actions of the run. */
  function Writing(k: nat): Op {
    var refs := {LocalizedResource(ONE_NODE, WRITER)};
    var phase := if k <= 6 then Reserved else if k == 7 then Targeted else if k == 8 then Collected
                 else if k == 9 then Asking else if k == 10 then Granted else if k == 11 then Reporting else Sending;
    Op(ONE_NODE, WRITER, HERE, phase, false, None, if k <= 7 then {} else refs, {},
       if k == 9 then map[ONE_NODE := {}] else map[], if k <= 11 then {} else refs)
  }

  lemma ExecUpTo(s: State, actions: seq<Action>, k: nat)
    requires k < |actions|
    ensures Exec(OneNode, s, actions[..k + 1]) == Next(OneNode, Exec(OneNode, s, actions[..k]), actions[k])
  {
    assert actions[..k + 1] == actions[..k] + [actions[k]];
    ExecInTurn(OneNode, s, actions[..k], [actions[k]]);
  }

  lemma ReaderStarts() returns (t: State)
    ensures t == Exec(OneNode, START, RUN[..4])
    ensures t == State(map[ONE_NODE := READER_NODE], map[0 := READING], [])
  {
    t := START;
    for k := 0 to 4
      invariant t == Exec(OneNode, START, RUN[..k])
      invariant t.history == []
      invariant t.ops == if k < 2 then map[] else map[0 := if k == 4 then READING else
        READING.(phase := if k == 2 then Reserved else Targeted)]
      invariant t.nodes == map[ONE_NODE := Node(if k < 1 then map[] else READER_NODE.enrolled,
                                                if k < 2 then map[] else READER_NODE.flows, map[], map[])]
    {
      ExecUpTo(START, RUN, k);
      t := Next(OneNode, t, RUN[k]);
    }
  }

  lemma WriterEnrols() returns (t: State)
    ensures t == Exec(OneNode, START, RUN[..5])
    ensures t == State(map[ONE_NODE := READER_NODE.(enrolled := READER_NODE.enrolled[(1, 3) := (WRITER, HERE)])],
                       map[0 := READING], [])
  {
    t := ReaderStarts();
    ExecUpTo(START, RUN, 4);
    t := Next(OneNode, t, RUN[4]);
  }

  lemma WriterStarts() returns (t: State)
    ensures t == Exec(OneNode, START, RUN[..6])
    ensures t == Busy(6)
  {
    t := WriterEnrols();
    ExecUpTo(START, RUN, 5);
    t := Next(OneNode, t, RUN[5]);
  }

  const BUSY_NODE := READER_NODE.(enrolled := READER_NODE.enrolled[(1, 3) := (WRITER, HERE)],
                                  flows := READER_NODE.flows[HERE := WRITER])

  function Busy(k: nat): State {
    State(map[ONE_NODE := BUSY_NODE], map[0 := READING, 1 := Writing(k)], [])
  }

  lemma WriterPasses()
    ensures Next(OneNode, Busy(8), RUN[8]) == Busy(9)
  {
    var op := Writing(8);
    assert Provenance.RefsAt(op.refs, ONE_NODE) == {WRITER};
    assert RulesAt(OneNode, Busy(8), op, ONE_NODE);
    assert AskedAt(Busy(8), op, ONE_NODE) == {};
    assert Next(OneNode, Busy(8), RUN[8]).ops == Busy(9).ops;
  }

  lemma WriterNeedsNoConsent()
    ensures Next(OneNode, Busy(9), RUN[9]) == Busy(10)
  {
    assert RemoteNodes(Writing(9).refs, ONE_NODE) == {};
    assert Next(OneNode, Busy(9), RUN[9]).ops == Busy(10).ops;
  }

  lemma WriterFetches(k: nat)
    requires 6 <= k < 8
    ensures Next(OneNode, Busy(k), RUN[k]) == Busy(k + 1)
  {
    assert Next(OneNode, Busy(k), RUN[k]).ops == Busy(k + 1).ops;
  }

  lemma WriterReports(k: nat)
    requires 10 <= k < 12
    ensures Next(OneNode, Busy(k), RUN[k]) == Busy(k + 1)
  {
    assert Next(OneNode, Busy(k), RUN[k]).ops == Busy(k + 1).ops;
  }

  lemma WriterStep(k: nat)
    requires 6 <= k < 12
    ensures Next(OneNode, Busy(k), RUN[k]) == Busy(k + 1)
  {
    if k < 8 {
      WriterFetches(k);
    } else if k == 8 {
      WriterPasses();
    } else if k == 9 {
      WriterNeedsNoConsent();
    } else {
      WriterReports(k);
    }
  }

  lemma WriterIsGranted()
    ensures Exec(OneNode, START, RUN) == Busy(12)
  {
    var t := WriterStarts();
    for k := 6 to 12
      invariant Exec(OneNode, START, RUN[..k]) == Busy(k)
    {
      ExecUpTo(START, RUN, k);
      WriterStep(k);
    }
    assert RUN[..12] == RUN;
  }

  lemma DeliveryReachesReader()
    ensures ProvOf(Next(OneNode, Busy(12), Deliver(1)), READING.Source()) != ProvOf(Busy(12), READING.Source())
  {
    var t' := Next(OneNode, Busy(12), Deliver(1));
    assert Writing(12).Target(OneNode) == READING.Source();
    assert LocalizedResource(ONE_NODE, WRITER) in ProvOf(t', READING.Source());
  }

  /** In this run the peer could not be reserved, the writer is granted all the same, and delivering its
      references changes those of the source of a request that has already collected them. */
  lemma SameNodeBreaksStability()
    ensures exists t, i, j ::
              && t == Exec(OneNode, START, RUN) && Initial(START)
              && i in t.ops && t.ops[i].Live() && t.ops[i].phase.Collected?
              && j in t.ops && t.ops[j].phase.Sending? && !t.ops[j].hold
              && ProvOf(Next(OneNode, t, Deliver(j)), t.ops[i].Source()) != ProvOf(t, t.ops[i].Source())
  {
    WriterIsGranted();
    DeliveryReachesReader();
    var t := Busy(12);
    assert t.ops[0] == READING && t.ops[1] == Writing(12);
  }
}

/**
 The calls of `P2mApiService`, run without interleaving, are runs of the
 protocol: what the class promises of one call is what `Protocol` does when no
 other request takes a step in between.
 */
module Alone {
  import opened Wrappers
  import opened Naming
  import opened Protocol
  import opened M2m
  import opened Recording
  import P2m
  import Sequencer
  import Provenance
  import Compliance

  function FlowsIn(nodes: map<NodeId, Node>): FlowTables {
    map n | n in nodes :: nodes[n].flows
  }

  function FlowsOf(s: State): FlowTables {
    FlowsIn(s.nodes)
  }

  function PoliciesIn(nodes: map<NodeId, Node>): PolicyTables {
    map n | n in nodes :: nodes[n].policies
  }

  function PoliciesOf(s: State): PolicyTables {
    PoliciesIn(s.nodes)
  }

  function StoresIn(nodes: map<NodeId, Node>): StoreTables {
    map n | n in nodes :: nodes[n].prov
  }

  function StoresOf(s: State): StoreTables {
    StoresIn(s.nodes)
  }

  /** The run consists of actions of this request. */
  ghost predicate Only(actions: seq<Action>, id: OpId) {
    forall a :: a in actions ==> ActsOn(a, id)
  }

  /** The same requests as before, and this one is about the same flow. */
  ghost predicate KeepsRequest(s: State, t: State, id: OpId) {
    && id in s.ops && id in t.ops && t.ops.Keys == s.ops.Keys
    && t.ops[id].node == s.ops[id].node
    && t.ops[id].source == s.ops[id].source && t.ops[id].destination == s.ops[id].destination
  }

  /** And it holds the peer's end if it did. */
  ghost predicate KeepsHold(s: State, t: State, id: OpId) {
    KeepsRequest(s, t, id) && t.ops[id].hold == s.ops[id].hold
  }

  /** Two runs of a request's own actions, one after the other. */
  lemma OnlyInTurn(resolve: Resolver, s: State, first: seq<Action>, rest: seq<Action>, id: OpId)
    requires Only(first, id) && Only(rest, id)
    ensures Only(first + rest, id)
    ensures Exec(resolve, s, first + rest) == Exec(resolve, Exec(resolve, s, first), rest)
  {
    ExecInTurn(resolve, s, first, rest);
  }

  /** The request went from `s` to `t` by its own actions, and is still about the same flow. */
  ghost predicate Runs(resolve: Resolver, s: State, actions: seq<Action>, t: State, id: OpId) {
    t == Exec(resolve, s, actions) && Only(actions, id) && KeepsRequest(s, t, id)
  }

  lemma RunsInTurn(resolve: Resolver, s: State, first: seq<Action>, u: State, rest: seq<Action>, t: State, id: OpId)
    requires Runs(resolve, s, first, u, id) && Runs(resolve, u, rest, t, id)
    ensures Runs(resolve, s, first + rest, t, id) && u.ops[id].Target(resolve) == s.ops[id].Target(resolve)
  {
    OnlyInTurn(resolve, s, first, rest, id);
  }

  lemma FlowsPut(s: State, t: State, n: NodeId, flows: Sequencer.Flows)
    requires n in s.nodes && t.nodes == PutFlows(s, n, flows).nodes
    ensures FlowsOf(t) == FlowsOf(s)[n := flows]
    ensures PoliciesOf(t) == PoliciesOf(s) && StoresOf(t) == StoresOf(s)
  {
  }

  lemma ProvPut(s: State, t: State, n: NodeId, prov: Provenance.Store)
    requires n in s.nodes && t.nodes == PutProv(s, n, prov).nodes
    ensures StoresOf(t) == StoresOf(s)[n := prov]
    ensures PoliciesOf(t) == PoliciesOf(s) && FlowsOf(t) == FlowsOf(s)
  {
  }

  lemma ReleaseAlone(resolve: Resolver, s: State, id: OpId) returns (t: State)
    requires In(s, id, Closing) || In(s, id, Refused)
    ensures t == Exec(resolve, s, [Release(id)]) && KeepsHold(s, t, id)
    ensures t.ops[id].phase == if s.ops[id].phase.Closing? then Released else Aborted
    ensures FlowsOf(t) == P2m.Dropped(FlowsOf(s), s.ops[id].Own())
    ensures PoliciesOf(t) == PoliciesOf(s) && StoresOf(t) == StoresOf(s)
  {
    var op := s.ops[id];
    t := DoRelease(s, id);
    ExecOne(resolve, s, Release(id));
    FlowsPut(s, t, op.node, s.nodes[op.node].flows - {op.destination});
  }

  /** Rules and consents, one after the other, are the answer of a node. */
  lemma Alike(resolve: Resolver, s: State, op: Op, n: NodeId, answers: Answers)
    ensures NodeGrants(PoliciesOf(s), n, op.refs, op.Target(resolve), op.policy, answers)
       <==> RulesAt(resolve, s, op, n) && AskedAt(s, op, n) <= ConsentingAt(answers, n)
  {
    if n in s.nodes {
      Compliance.EvalIsRulesThenConsents(s.nodes[n].policies, n, Provenance.RefsAt(op.refs, n), op.Target(resolve),
                                         op.policy, ConsentingAt(answers, n));
    }
  }

  lemma ReservePeerAlone(resolve: Resolver, s: State, id: OpId) returns (t: State)
    requires In(s, id, Reserved) && s.ops[id].destination.IsStream()
    requires PeerAvailable(FlowsOf(s), s.ops[id].Target(resolve))
    ensures t == Exec(resolve, s, [ReservePeer(id)]) && In(t, id, PeerReserved) && t.ops.Keys == s.ops.Keys
    ensures t.ops[id] == s.ops[id].(phase := PeerReserved, hold := true)
    ensures FlowsOf(t) == HoldPeer(FlowsOf(s), s.ops[id].Target(resolve))
    ensures PoliciesOf(t) == PoliciesOf(s) && StoresOf(t) == StoresOf(s)
  {
    var target := s.ops[id].Target(resolve);
    t := DoReservePeer(resolve, s, id);
    ExecOne(resolve, s, ReservePeer(id));
    FlowsPut(s, t, target.nodeId, s.nodes[target.nodeId].flows[target.resource := Null]);
  }

  /** The peer's end is held if it could be, and then its policy is there. */
  ghost predicate Fetches(resolve: Resolver, s: State, t: State, id: OpId) {
    && KeepsRequest(s, t, id) && (t.ops[id].hold <==> t.ops[id].policy.Some?)
    && var target := s.ops[id].Target(resolve);
       && FlowsOf(t) == P2m.PeerHeld(FlowsOf(s), target)
       && P2m.Fetched(FlowsOf(s), PoliciesOf(s), target, t.ops[id].policy)
       && PoliciesOf(t) == PoliciesOf(s) && StoresOf(t) == StoresOf(s)
  }

  lemma FetchFromPeer(resolve: Resolver, s: State, id: OpId) returns (actions: seq<Action>, t: State)
    requires In(s, id, Reserved) && s.ops[id].destination.IsStream()
    requires PeerAvailable(FlowsOf(s), s.ops[id].Target(resolve))
    ensures t == Exec(resolve, s, actions) && Only(actions, id) && In(t, id, Targeted)
    ensures Fetches(resolve, s, t, id)
  {
    var u := ReservePeerAlone(resolve, s, id);
    t := DoPeerPolicy(resolve, u, id);
    actions := [ReservePeer(id)] + [PeerPolicy(id)];
    ExecOne(resolve, u, PeerPolicy(id));
    OnlyInTurn(resolve, s, [ReservePeer(id)], [PeerPolicy(id)], id);
    var target := s.ops[id].Target(resolve);
    assert u.nodes[target.nodeId].policies == PoliciesOf(u)[target.nodeId];
  }

  lemma FetchNothing(resolve: Resolver, s: State, id: OpId) returns (actions: seq<Action>, t: State)
    requires In(s, id, Reserved) && s.ops[id].policy.None? && !s.ops[id].hold
    requires s.ops[id].destination.IsStream() ==> !PeerAvailable(FlowsOf(s), s.ops[id].Target(resolve))
    ensures t == Exec(resolve, s, actions) && Only(actions, id) && In(t, id, Targeted)
    ensures Fetches(resolve, s, t, id)
  {
    t := DoNoPeerPolicy(s, id);
    actions := [NoPeerPolicy(id)];
    ExecOne(resolve, s, NoPeerPolicy(id));
  }

  /** The policy of the target is obtained, is not needed, or cannot be obtained. */
  lemma FetchAlone(resolve: Resolver, s: State, id: OpId) returns (actions: seq<Action>, t: State)
    requires In(s, id, Reserved) && s.ops[id].policy.None? && !s.ops[id].hold
    ensures t == Exec(resolve, s, actions) && Only(actions, id) && In(t, id, Targeted)
    ensures Fetches(resolve, s, t, id)
  {
    if s.ops[id].destination.IsStream() && PeerAvailable(FlowsOf(s), s.ops[id].Target(resolve)) {
      actions, t := FetchFromPeer(resolve, s, id);
    } else {
      actions, t := FetchNothing(resolve, s, id);
    }
  }

  /** One node reads its policies and then its owners answer. */
  lemma AskOneAlone(resolve: Resolver, s: State, id: OpId, n: NodeId, answers: Answers)
    returns (actions: seq<Action>, t: State)
    requires In(s, id, Checking) && n in s.ops[id].pending && s.ops[id].asking == map[]
    ensures t == Exec(resolve, s, actions) && Only(actions, id) && t.nodes == s.nodes && KeepsHold(s, t, id)
    ensures var op := s.ops[id];
            if NodeGrants(PoliciesOf(s), n, op.refs, op.Target(resolve), op.policy, answers) then
              t.ops[id] == op.(pending := op.pending - {n},
                               phase := if op.pending - {n} == {} then Granted else Checking)
            else t.ops[id].phase.Refused?
  {
    Alike(resolve, s, s.ops[id], n, answers);
    var u := DoCheckRemote(resolve, s, id, n);
    if u.ops[id].phase.Refused? {
      actions, t := [CheckRemote(id, n)], u;
    } else {
      actions, t := AnswerOneAlone(resolve, s, id, n, ConsentingAt(answers, n));
    }
  }

  lemma AnswerOneAlone(resolve: Resolver, s: State, id: OpId, n: NodeId, consenting: set<Resource>)
    returns (actions: seq<Action>, t: State)
    requires In(s, id, Checking) && n in s.ops[id].pending && s.ops[id].asking == map[]
    requires RulesAt(resolve, s, s.ops[id], n)
    ensures t == Exec(resolve, s, actions) && Only(actions, id) && t.nodes == s.nodes && KeepsHold(s, t, id)
    ensures var op := s.ops[id];
            if AskedAt(s, op, n) <= consenting then
              t.ops[id] == op.(pending := op.pending - {n},
                               phase := if op.pending - {n} == {} then Granted else Checking)
            else t.ops[id].phase.Refused?
  {
    var read, consent := CheckRemote(id, n), ConsentRemote(id, n, consenting);
    var u := DoCheckRemote(resolve, s, id, n);
    t := DoConsentRemote(u, id, n, consenting);
    actions := [read] + [consent];
    ExecOne(resolve, s, read);
    ExecOne(resolve, u, consent);
    OnlyInTurn(resolve, s, [read], [consent], id);
    assert u.ops[id].asking - {n} == map[];
  }

  lemma RefusedByFailure(resolve: Resolver, s: State, id: OpId) returns (t: State)
    requires In(s, id, Checking)
    ensures Runs(resolve, s, [RemoteFailure(id)], t, id) && t.nodes == s.nodes && In(t, id, Refused)
    ensures t.ops[id].hold == s.ops[id].hold
  {
    t := DoRemoteFailure(s, id);
    ExecOne(resolve, s, RemoteFailure(id));
  }

  /** A node that cannot be reached makes the request a denial, which gives back its own reservation only. */
  lemma FailedCallDenies(resolve: Resolver, s: State, id: OpId) returns (t: State)
    requires In(s, id, Checking)
    ensures Runs(resolve, s, [RemoteFailure(id)] + [Release(id)], t, id)
    ensures t.ops[id].phase.Aborted? && t.ops[id].hold == s.ops[id].hold
    ensures FlowsOf(t) == P2m.Dropped(FlowsOf(s), s.ops[id].Own())
    ensures PoliciesOf(t) == PoliciesOf(s) && StoresOf(t) == StoresOf(s)
  {
    var u := RefusedByFailure(resolve, s, id);
    t := ReleaseAlone(resolve, u, id);
    RunsInTurn(resolve, s, [RemoteFailure(id)], u, [Release(id)], t, id);
  }

  /** The nodes still to be asked are asked one by one. */
  lemma {:induction false} AskAlone(resolve: Resolver, s: State, id: OpId, answers: Answers)
    returns (actions: seq<Action>, t: State)
    requires In(s, id, Checking) && s.ops[id].pending != {} && s.ops[id].asking == map[]
    ensures t == Exec(resolve, s, actions) && Only(actions, id) && t.nodes == s.nodes && KeepsHold(s, t, id)
    ensures t.ops[id].phase.Granted? || t.ops[id].phase.Refused?
    ensures var op := s.ops[id];
            t.ops[id].phase.Granted?
            <==> AllGrant(PoliciesOf(s), op.pending, op.refs, op.Target(resolve), op.policy, answers)
    decreases s.ops[id].pending
  {
    var op := s.ops[id];
    var n :| n in op.pending;
    var u;
    actions, u := AskOneAlone(resolve, s, id, n, answers);
    AllGrantOneMore(PoliciesOf(s), op.pending - {n}, n, op.refs, op.Target(resolve), op.policy, answers);
    assert op.pending - {n} + {n} == op.pending;
    if u.ops[id].phase.Checking? {
      var more;
      more, t := AskAlone(resolve, u, id, answers);
      OnlyInTurn(resolve, s, actions, more, id);
      actions := actions + more;
    } else {
      t := u;
    }
  }

  /** What was decided about a request, and whether it is about to release its own reservation. */
  ghost predicate Decided(resolve: Resolver, s: State, op: Op, answers: Answers, phase: Phase)
    requires op.node in s.nodes
  {
    && (phase.Granted? || phase.Refused? || phase.Leaked?)
    && P2m.Verdict(PoliciesOf(s), op.node, op.refs, op.Target(resolve), op.policy, answers,
                   phase.Granted?, !phase.Leaked?)
  }

  /** The other nodes' part of the verdict. */
  lemma ResolveAlone(resolve: Resolver, s: State, id: OpId, answers: Answers) returns (actions: seq<Action>, t: State)
    requires In(s, id, LocalPassed) && RemoteNodes(s.ops[id].refs, s.ops[id].node) != {} && s.ops[id].asking == map[]
    requires var op := s.ops[id];
             NodeGrants(PoliciesOf(s), op.node, op.refs, op.Target(resolve), op.policy, answers)
    requires !s.ops[id].destination.IsStream() ==> s.ops[id].policy.None?
    ensures t == Exec(resolve, s, actions) && Only(actions, id) && t.nodes == s.nodes && KeepsHold(s, t, id)
    ensures Decided(resolve, s, s.ops[id], answers, t.ops[id].phase)
  {
    var op := s.ops[id];
    var u := DoResolvePolicy(s, id);
    assert RemoteNodes(op.refs, op.node) == NodesOf(op.refs) - {op.node};
    if u.ops[id].phase.Leaked? {
      actions, t := [ResolvePolicy(id)], u;
    } else {
      assert u.ops[id].policy == P2m.PolicySent(PoliciesOf(s), op.node, op.Target(resolve), op.policy);
      var more;
      more, t := AskAlone(resolve, u, id, answers);
      actions := [ResolvePolicy(id)] + more;
      OnlyInTurn(resolve, s, [ResolvePolicy(id)], more, id);
    }
  }

  /** This node reads its policies and then its owners answer. */
  lemma AskOwnAlone(resolve: Resolver, s: State, id: OpId, answers: Answers) returns (actions: seq<Action>, t: State)
    requires In(s, id, Collected)
    ensures t == Exec(resolve, s, actions) && Only(actions, id) && t.nodes == s.nodes && KeepsHold(s, t, id)
    ensures var op := s.ops[id];
            if NodeGrants(PoliciesOf(s), op.node, op.refs, op.Target(resolve), op.policy, answers) then
              t.ops[id] == op.(asking := map[],
                               phase := if RemoteNodes(op.refs, op.node) == {} then Granted else LocalPassed)
            else t.ops[id].phase.Refused?
  {
    var n := s.ops[id].node;
    Alike(resolve, s, s.ops[id], n, answers);
    var u := DoCheckLocal(resolve, s, id);
    if u.ops[id].phase.Refused? {
      actions, t := [CheckLocal(id)], u;
      ExecOne(resolve, s, CheckLocal(id));
    } else {
      actions, t := AnswerOwnAlone(resolve, s, id, ConsentingAt(answers, n));
    }
  }

  lemma AnswerOwnAlone(resolve: Resolver, s: State, id: OpId, consenting: set<Resource>)
    returns (actions: seq<Action>, t: State)
    requires In(s, id, Collected) && RulesAt(resolve, s, s.ops[id], s.ops[id].node)
    ensures t == Exec(resolve, s, actions) && Only(actions, id) && t.nodes == s.nodes && KeepsHold(s, t, id)
    ensures var op := s.ops[id];
            if AskedAt(s, op, op.node) <= consenting then
              t.ops[id] == op.(asking := map[],
                               phase := if RemoteNodes(op.refs, op.node) == {} then Granted else LocalPassed)
            else t.ops[id].phase.Refused?
  {
    var read, consent := CheckLocal(id), ConsentLocal(id, consenting);
    var u := DoCheckLocal(resolve, s, id);
    t := DoConsentLocal(u, id, consenting);
    actions := [read] + [consent];
    ExecOne(resolve, s, read);
    ExecOne(resolve, u, consent);
    OnlyInTurn(resolve, s, [read], [consent], id);
  }

  /** The verdict of all nodes. */
  lemma DecideAlone(resolve: Resolver, s: State, id: OpId, answers: Answers) returns (actions: seq<Action>, t: State)
    requires In(s, id, Collected)
    requires !s.ops[id].destination.IsStream() ==> s.ops[id].policy.None?
    ensures t == Exec(resolve, s, actions) && Only(actions, id) && t.nodes == s.nodes && KeepsHold(s, t, id)
    ensures Decided(resolve, s, s.ops[id], answers, t.ops[id].phase)
  {
    var op := s.ops[id];
    var u;
    actions, u := AskOwnAlone(resolve, s, id, answers);
    assert RemoteNodes(op.refs, op.node) == NodesOf(op.refs) - {op.node};
    if u.ops[id].phase.LocalPassed? {
      var more;
      more, t := ResolveAlone(resolve, u, id, answers);
      OnlyInTurn(resolve, s, actions, more, id);
      actions := actions + more;
    } else {
      t := u;
    }
  }

  /** The references of the source are read and the verdict is reached. */
  lemma CollectAlone(resolve: Resolver, s: State, id: OpId, answers: Answers) returns (actions: seq<Action>, t: State)
    requires In(s, id, Targeted)
    requires !s.ops[id].destination.IsStream() ==> s.ops[id].policy.None?
    ensures t == Exec(resolve, s, actions) && Only(actions, id) && t.nodes == s.nodes && KeepsHold(s, t, id)
    ensures var op := s.ops[id];
            Decided(resolve, s, op.(refs := ProvOf(s, op.Source())), answers, t.ops[id].phase)
  {
    var u := DoCollect(s, id);
    var rest;
    rest, t := DecideAlone(resolve, u, id, answers);
    actions := [Collect(id)] + rest;
    OnlyInTurn(resolve, s, [Collect(id)], rest, id);
  }

  lemma ConcludeAlone(resolve: Resolver, s: State, id: OpId, answers: Answers)
    returns (actions: seq<Action>, t: State, release: bool)
    requires In(s, id, Targeted)
    requires !s.ops[id].destination.IsStream() ==> s.ops[id].policy.None?
    ensures t == Exec(resolve, s, actions) && Only(actions, id) && KeepsHold(s, t, id)
    ensures t.ops[id].phase.Granted? || t.ops[id].phase == if release then Aborted else Leaked
    ensures var op := s.ops[id];
            && P2m.Verdict(PoliciesOf(s), op.node, ProvOf(s, op.Source()), op.Target(resolve), op.policy, answers,
                           t.ops[id].phase.Granted?, release)
            && FlowsOf(t) == P2m.Left(FlowsOf(s), op.Own(), t.ops[id].phase.Granted? || !release)
    ensures PoliciesOf(t) == PoliciesOf(s) && StoresOf(t) == StoresOf(s)
  {
    var first, u := CollectAlone(resolve, s, id, answers);
    release := !u.ops[id].phase.Leaked?;
    if u.ops[id].phase.Refused? {
      t := ReleaseAlone(resolve, u, id);
      actions := first + [Release(id)];
      OnlyInTurn(resolve, s, first, [Release(id)], id);
    } else {
      actions, t := first, u;
    }
  }

  /** From the own reservation to the end of the request. */
  lemma ProceedAlone(resolve: Resolver, s: State, id: OpId, answers: Answers)
    returns (actions: seq<Action>, t: State, policy: Option<Policy>, release: bool)
    requires In(s, id, Reserved) && s.ops[id].policy.None? && !s.ops[id].hold
    ensures t == Exec(resolve, s, actions) && Only(actions, id) && KeepsRequest(s, t, id)
    ensures t.ops[id].phase.Granted? || t.ops[id].phase == if release then Aborted else Leaked
    ensures t.ops[id].hold <==> policy.Some?
    ensures var op, target := s.ops[id], s.ops[id].Target(resolve);
            && P2m.Fetched(FlowsOf(s), PoliciesOf(s), target, policy)
            && P2m.Verdict(PoliciesOf(s), op.node, ProvOf(s, op.Source()), target, policy, answers,
                           t.ops[id].phase.Granted?, release)
            && FlowsOf(t) == P2m.Left(P2m.PeerHeld(FlowsOf(s), target), op.Own(), t.ops[id].phase.Granted? || !release)
    ensures PoliciesOf(t) == PoliciesOf(s) && StoresOf(t) == StoresOf(s)
  {
    var first, u := FetchAlone(resolve, s, id);
    policy := u.ops[id].policy;
    SameProv(s, u, s.ops[id].Source());
    var second;
    second, t, release := ConcludeAlone(resolve, u, id, answers);
    actions := first + second;
    OnlyInTurn(resolve, s, first, second, id);
  }

  lemma SameProv(s: State, t: State, x: LocalizedResource)
    requires StoresOf(t) == StoresOf(s)
    ensures ProvOf(t, x) == ProvOf(s, x)
  {
    assert x.nodeId in s.nodes <==> x.nodeId in StoresOf(s);
    assert x.nodeId in t.nodes <==> x.nodeId in StoresOf(t);
    assert x.nodeId in s.nodes ==> s.nodes[x.nodeId].prov == StoresOf(s)[x.nodeId];
    assert x.nodeId in t.nodes ==> t.nodes[x.nodeId].prov == StoresOf(t)[x.nodeId];
  }

  /** What an undisturbed request that could reserve its own flow looks like in the end: whether it holds the peer's
      end, and whether it returned without releasing anything. */
  ghost predicate EndsAs(resolve: Resolver, s: State, n: NodeId, source: Resource, destination: Resource,
                         answers: Answers, op: Op)
    requires n in s.nodes
  {
    var target := IntoLocalized(resolve, destination, n);
    var refs := Provenance.GetProv(n, s.nodes[n].prov, source);
    var unheld := P2m.Unheld(FlowsOf(s), n, source, destination, target);
    && op.node == n && op.source == source && op.destination == destination
    && (op.phase.Granted? || op.phase.Aborted? || op.phase.Leaked?)
    && (op.hold <==> target.resource.IsStream() && !unheld)
    && (op.phase.Leaked? <==>
        unheld && !(NodesOf(refs) <= {n}) && NodeGrants(PoliciesOf(s), n, refs, target, None, answers))
  }

  lemma EndIsReached(resolve: Resolver, s: State, n: NodeId, source: Resource, destination: Resource, answers: Answers,
                     op: Op, policy: Option<Policy>, release: bool, after: FlowTables)
    requires n in s.nodes && Sequencer.MayReserve(s.nodes[n].flows, source, destination)
    requires op.node == n && op.source == source && op.destination == destination
    requires op.phase.Granted? || op.phase == if release then Aborted else Leaked
    requires op.hold <==> policy.Some?
    requires var target := IntoLocalized(resolve, destination, n);
             var mid := P2m.Reserved(FlowsOf(s), n, source, destination);
             && P2m.Fetched(mid, PoliciesOf(s), target, policy)
             && P2m.Verdict(PoliciesOf(s), n, ProvOf(s, op.Source()), target, policy, answers,
                            op.phase.Granted?, release)
             && after == P2m.Left(P2m.PeerHeld(mid, target), op.Own(), op.phase.Granted? || !release)
    ensures EndsAs(resolve, s, n, source, destination, answers, op)
    ensures P2m.Answered(resolve, FlowsOf(s), PoliciesOf(s), n, source, destination,
                         Provenance.GetProv(n, s.nodes[n].prov, source), answers, op.phase.Granted?, after)
  {
    P2m.AnswerIsReached(resolve, FlowsOf(s), PoliciesOf(s), n, source, destination, ProvOf(s, op.Source()),
                        answers, policy, op.phase.Granted?, release, after);
  }

  /** An undisturbed `IoRequest` is a run of the protocol. */
  lemma RequestAlone(resolve: Resolver, s: State, id: OpId, n: NodeId, pid: int, descriptor: int, output: bool,
                     answers: Answers)
    returns (actions: seq<Action>, t: State)
    requires id !in s.ops && n in s.nodes && (pid, descriptor) in s.nodes[n].enrolled
    ensures t == Exec(resolve, s, actions) && Only(actions, id)
    ensures var (source, destination) := P2m.Ends(s.nodes[n].enrolled[(pid, descriptor)], output);
            if Sequencer.MayReserve(s.nodes[n].flows, source, destination) then
              t.ops.Keys == s.ops.Keys + {id} && EndsAs(resolve, s, n, source, destination, answers, t.ops[id])
            else t == s
    ensures var (source, destination) := P2m.Ends(s.nodes[n].enrolled[(pid, descriptor)], output);
            P2m.Answered(resolve, FlowsOf(s), PoliciesOf(s), n, source, destination,
                         Provenance.GetProv(n, s.nodes[n].prov, source), answers,
                         id in t.ops && t.ops[id].phase.Granted?, FlowsOf(t))
    ensures PoliciesOf(t) == PoliciesOf(s) && StoresOf(t) == StoresOf(s)
  {
    var (source, destination) := P2m.Ends(s.nodes[n].enrolled[(pid, descriptor)], output);
    var step := Request(id, n, pid, descriptor, output);
    var u := Next(resolve, s, step);
    if Sequencer.MayReserve(s.nodes[n].flows, source, destination) {
      var rest;
      rest, t := GoOnAlone(resolve, s, id, n, source, destination, answers, u);
      actions := [step] + rest;
      OnlyInTurn(resolve, s, [step], rest, id);
    } else {
      actions, t := [step], u;
    }
  }

  /** The rest of a request that has reserved its own flow. */
  lemma GoOnAlone(resolve: Resolver, s: State, id: OpId, n: NodeId, source: Resource, destination: Resource,
                  answers: Answers, u: State)
    returns (actions: seq<Action>, t: State)
    requires n in s.nodes && Sequencer.MayReserve(s.nodes[n].flows, source, destination)
    requires u == PutOp(PutFlows(s, n, s.nodes[n].flows[destination := source]), id,
                        Op(n, source, destination, Reserved, false, None, {}, {}, map[], {}))
    ensures t == Exec(resolve, u, actions) && Only(actions, id)
    ensures t.ops.Keys == s.ops.Keys + {id} && EndsAs(resolve, s, n, source, destination, answers, t.ops[id])
    ensures P2m.Answered(resolve, FlowsOf(s), PoliciesOf(s), n, source, destination,
                         Provenance.GetProv(n, s.nodes[n].prov, source), answers,
                         t.ops[id].phase.Granted?, FlowsOf(t))
    ensures PoliciesOf(t) == PoliciesOf(s) && StoresOf(t) == StoresOf(s)
  {
    ReservedAlone(s, id, n, source, destination, u);
    SameProv(s, u, u.ops[id].Source());
    var policy, release;
    actions, t, policy, release := ProceedAlone(resolve, u, id, answers);
    EndIsReached(resolve, s, n, source, destination, answers, t.ops[id], policy, release, FlowsOf(t));
  }

  lemma ReservedAlone(s: State, id: OpId, n: NodeId, source: Resource, destination: Resource, u: State)
    requires n in s.nodes
    requires u == PutOp(PutFlows(s, n, s.nodes[n].flows[destination := source]), id,
                        Op(n, source, destination, Reserved, false, None, {}, {}, map[], {}))
    ensures FlowsOf(u) == P2m.Reserved(FlowsOf(s), n, source, destination)
    ensures PoliciesOf(u) == PoliciesOf(s) && StoresOf(u) == StoresOf(s)
  {
    FlowsPut(s, u, n, s.nodes[n].flows[destination := source]);
  }

  /** The node at the other end of a stream is there, or there is none to be reached. */
  predicate Reaches(resolve: Resolver, s: State, op: Op) {
    PeerStream(resolve, op.destination).Some? ==> op.Target(resolve).nodeId in s.nodes
  }

  /** An undisturbed `IoReport` is a run of the protocol. If the peer's node is not there the report fails, and both
      reservations stay. */
  lemma ReportAlone(resolve: Resolver, s: State, id: OpId) returns (actions: seq<Action>, t: State)
    requires In(s, id, Granted)
    ensures Runs(resolve, s, actions, t, id)
    ensures t.ops[id].phase == if Reaches(resolve, s, s.ops[id]) then Released else Undelivered
    ensures var op := s.ops[id];
            P2m.Reported(resolve, FlowsOf(s), StoresOf(s), op.node, op.source, op.destination,
                         Reaches(resolve, s, op), FlowsOf(t), StoresOf(t))
    ensures PoliciesOf(t) == PoliciesOf(s)
  {
    if Reaches(resolve, s, s.ops[id]) {
      var first, u := RecordAlone(resolve, s, id);
      t := ReleaseAlone(resolve, u, id);
      actions := first + [Release(id)];
      RunsInTurn(resolve, s, first, u, [Release(id)], t, id);
    } else {
      actions, t := FailAlone(resolve, s, id);
    }
  }

  /** The references are read and cannot be delivered. */
  lemma FailAlone(resolve: Resolver, s: State, id: OpId) returns (actions: seq<Action>, t: State)
    requires In(s, id, Granted) && PeerStream(resolve, s.ops[id].destination).Some?
    ensures Runs(resolve, s, actions, t, id) && t.ops[id].hold == s.ops[id].hold
    ensures t.nodes == s.nodes && t.ops[id].phase.Undelivered?
  {
    var first, u := SendAlone(resolve, s, id);
    t := DoDeliveryFailure(u, id);
    actions := first + [DeliveryFailure(id)];
    ExecOne(resolve, u, DeliveryFailure(id));
    RunsInTurn(resolve, s, first, u, [DeliveryFailure(id)], t, id);
  }

  /** The references of `source` are recorded at `target`, and the policies stay. */
  ghost predicate Records(s: State, t: State, n: NodeId, source: Resource, target: LocalizedResource)
    requires n in s.nodes && target.nodeId in s.nodes
  {
    && StoresOf(t) == P2m.Updated(StoresOf(s), n, target.nodeId, source, target.resource)
    && PoliciesOf(t) == PoliciesOf(s)
  }

  lemma StillRecorded(s: State, u: State, t: State, n: NodeId, source: Resource, target: LocalizedResource)
    requires n in s.nodes && target.nodeId in s.nodes
    requires Records(s, u, n, source, target) && StoresOf(t) == StoresOf(u) && PoliciesOf(t) == PoliciesOf(u)
    ensures Records(s, t, n, source, target)
  {
  }

  /** The flow is recorded, and a stream's peer released. */
  lemma RecordAlone(resolve: Resolver, s: State, id: OpId) returns (actions: seq<Action>, t: State)
    requires In(s, id, Granted) && Reaches(resolve, s, s.ops[id])
    ensures Runs(resolve, s, actions, t, id) && In(t, id, Closing)
    ensures var op, target := s.ops[id], s.ops[id].Target(resolve);
            && Records(s, t, op.node, op.source, target)
            && FlowsOf(t) == P2m.Left(FlowsOf(s), target, PeerStream(resolve, op.destination).None?)
  {
    if PeerStream(resolve, s.ops[id].destination).Some? {
      actions, t := RecordAtPeerAlone(resolve, s, id);
    } else {
      actions, t := RecordOwnAlone(resolve, s, id);
    }
  }

  lemma RecordAtPeerAlone(resolve: Resolver, s: State, id: OpId) returns (actions: seq<Action>, t: State)
    requires In(s, id, Granted)
    requires PeerStream(resolve, s.ops[id].destination).Some? && s.ops[id].Target(resolve).nodeId in s.nodes
    ensures Runs(resolve, s, actions, t, id) && In(t, id, Closing)
    ensures Records(s, t, s.ops[id].node, s.ops[id].source, s.ops[id].Target(resolve))
    ensures FlowsOf(t) == P2m.Dropped(FlowsOf(s), s.ops[id].Target(resolve))
  {
    var op, target := s.ops[id], s.ops[id].Target(resolve);
    var first, u := DeliverAlone(resolve, s, id);
    t := ReleasePeerAlone(resolve, u, id, target);
    StillRecorded(s, u, t, op.node, op.source, target);
    actions := first + [ReleasePeer(id)];
    RunsInTurn(resolve, s, first, u, [ReleasePeer(id)], t, id);
  }

  lemma StartReport(resolve: Resolver, s: State, id: OpId) returns (t: State)
    requires In(s, id, Granted)
    ensures Runs(resolve, s, [Report(id)], t, id) && t.nodes == s.nodes
    ensures t.ops[id] == s.ops[id].(phase := Reporting)
  {
    t := DoReport(s, id);
    ExecOne(resolve, s, Report(id));
  }

  lemma RecordPuts(resolve: Resolver, s: State, id: OpId) returns (t: State)
    requires In(s, id, Reporting) && PeerStream(resolve, s.ops[id].destination).None?
    ensures Runs(resolve, s, [Record(id)], t, id) && In(t, id, Closing)
    ensures Records(s, t, s.ops[id].node, s.ops[id].source, s.ops[id].Target(resolve)) && FlowsOf(t) == FlowsOf(s)
  {
    var op := s.ops[id];
    t := DoRecord(resolve, s, id);
    ExecOne(resolve, s, Record(id));
    ProvPut(s, t, op.node,
            Provenance.UpdateRaw(op.node, s.nodes[op.node].prov, ProvOf(s, op.Source()), op.destination));
  }

  lemma RecordOwnAlone(resolve: Resolver, s: State, id: OpId) returns (actions: seq<Action>, t: State)
    requires In(s, id, Granted) && PeerStream(resolve, s.ops[id].destination).None?
    ensures Runs(resolve, s, actions, t, id) && In(t, id, Closing)
    ensures Records(s, t, s.ops[id].node, s.ops[id].source, s.ops[id].Target(resolve)) && FlowsOf(t) == FlowsOf(s)
  {
    var u := StartReport(resolve, s, id);
    t := RecordPuts(resolve, u, id);
    actions := [Report(id)] + [Record(id)];
    RunsInTurn(resolve, s, [Report(id)], u, [Record(id)], t, id);
  }

  lemma SendAlone(resolve: Resolver, s: State, id: OpId) returns (actions: seq<Action>, t: State)
    requires In(s, id, Granted) && PeerStream(resolve, s.ops[id].destination).Some?
    ensures Runs(resolve, s, actions, t, id) && t.nodes == s.nodes
    ensures t.ops[id] == s.ops[id].(phase := Sending, sent := ProvOf(s, s.ops[id].Source()))
  {
    var u := StartReport(resolve, s, id);
    t := DoReadSource(resolve, u, id);
    ExecOne(resolve, u, ReadSource(id));
    actions := [Report(id)] + [ReadSource(id)];
    RunsInTurn(resolve, s, [Report(id)], u, [ReadSource(id)], t, id);
  }

  lemma DeliverPuts(resolve: Resolver, s: State, id: OpId) returns (t: State)
    requires In(s, id, Sending) && s.ops[id].sent == ProvOf(s, s.ops[id].Source())
    requires s.ops[id].Target(resolve).nodeId in s.nodes
    ensures Runs(resolve, s, [Deliver(id)], t, id) && In(t, id, Delivered)
    ensures Records(s, t, s.ops[id].node, s.ops[id].source, s.ops[id].Target(resolve)) && FlowsOf(t) == FlowsOf(s)
  {
    var op, target := s.ops[id], s.ops[id].Target(resolve);
    t := DoDeliver(resolve, s, id);
    ExecOne(resolve, s, Deliver(id));
    ProvPut(s, t, target.nodeId,
            Provenance.UpdateRaw(target.nodeId, s.nodes[target.nodeId].prov, op.sent, target.resource));
  }

  lemma DeliverAlone(resolve: Resolver, s: State, id: OpId) returns (actions: seq<Action>, t: State)
    requires In(s, id, Granted)
    requires PeerStream(resolve, s.ops[id].destination).Some? && s.ops[id].Target(resolve).nodeId in s.nodes
    ensures Runs(resolve, s, actions, t, id) && In(t, id, Delivered)
    ensures Records(s, t, s.ops[id].node, s.ops[id].source, s.ops[id].Target(resolve)) && FlowsOf(t) == FlowsOf(s)
    ensures t.ops[id].Target(resolve) == s.ops[id].Target(resolve)
  {
    var first, u := SendAlone(resolve, s, id);
    assert u.ops[id].Target(resolve) == s.ops[id].Target(resolve);
    t := DeliverPuts(resolve, u, id);
    actions := first + [Deliver(id)];
    RunsInTurn(resolve, s, first, u, [Deliver(id)], t, id);
  }

  lemma ReleasePeerAlone(resolve: Resolver, s: State, id: OpId, target: LocalizedResource) returns (t: State)
    requires In(s, id, Delivered) && target == s.ops[id].Target(resolve) && target.nodeId in s.nodes
    ensures Runs(resolve, s, [ReleasePeer(id)], t, id) && In(t, id, Closing)
    ensures FlowsOf(t) == P2m.Dropped(FlowsOf(s), target)
    ensures PoliciesOf(t) == PoliciesOf(s) && StoresOf(t) == StoresOf(s)
  {
    t := DoReleasePeer(resolve, s, id);
    ExecOne(resolve, s, ReleasePeer(id));
    FlowsPut(s, t, target.nodeId, s.nodes[target.nodeId].flows - {target.resource});
  }
}

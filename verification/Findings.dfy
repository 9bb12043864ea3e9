/**
 What the protocol does not guarantee: for each shortcoming the condition under
 which an undisturbed request shows it, and a run from an initial state that does.
 */
module Findings {
  import opened Wrappers
  import opened Naming
  import opened Protocol
  import opened M2m
  import opened Recording
  import opened Deletion
  import opened Mediation
  import opened Alone
  import opened Theorems
  import P2m
  import Sequencer
  import Provenance
  import Compliance

  // ---------------------------------------------------------------- two nodes

  const HERE := "10.0.0.1"
  const THERE := "10.0.0.2"
  const NEAR := Descriptor(Stream("10.0.0.1:1", "10.0.0.2:1"))
  const FAR := Descriptor(Stream("10.0.0.2:1", "10.0.0.1:1"))
  const LOOP := Descriptor(Stream("10.0.0.1:9", "10.0.0.1:9"))
  const WORKER := Process(1, 0, "")

  function TwoNodes(socket: string): Option<NodeId> {
    if socket == "10.0.0.2:1" then Some(THERE) else Some(HERE)
  }

  const EMPTY := Node(map[], map[], map[], map[])
  const START := State(map[HERE := EMPTY, THERE := EMPTY], map[], [])

  lemma OnlyIsAdmissible(resolve: Resolver, first: seq<Action>, rest: seq<Action>, id: OpId)
    requires Admissible(resolve, first) && Only(rest, id)
    ensures Admissible(resolve, first + rest)
  {
    assert forall i :: 0 <= i < |rest| ==> ActsOn(rest[i], id);
  }

  // ---------------------------------------------------------------- orphaned reservations

  /** With the peer on another node, exactly the denied requests that found the peer's end free go on holding it. */
  lemma DenialOrphansExactly(resolve: Resolver, s: State, id: OpId, n: NodeId, pid: int, descriptor: int, output: bool,
                             answers: Answers)
    returns (actions: seq<Action>, t: State)
    requires id !in s.ops && n in s.nodes && (pid, descriptor) in s.nodes[n].enrolled
    requires var (source, destination) := P2m.Ends(s.nodes[n].enrolled[(pid, descriptor)], output);
             && Sequencer.MayReserve(s.nodes[n].flows, source, destination)
             && var target := IntoLocalized(resolve, destination, n);
                target.resource.IsStream() ==> target.nodeId != n
    ensures t == Exec(resolve, s, actions) && Only(actions, id) && id in t.ops
    ensures var (source, destination) := P2m.Ends(s.nodes[n].enrolled[(pid, descriptor)], output);
            var target := IntoLocalized(resolve, destination, n);
            && (t.ops[id].phase.Granted? <==>
                && (target.resource.IsStream() ==> PeerAvailable(FlowsOf(s), target))
                && P2m.AllPass(PoliciesOf(s), Provenance.GetProv(n, s.nodes[n].prov, source), target, answers))
            && (!t.ops[id].phase.Granted? ==>
                  (Orphaned(t, id) <==> target.resource.IsStream() && PeerAvailable(FlowsOf(s), target)))
  {
    var (source, destination) := P2m.Ends(s.nodes[n].enrolled[(pid, descriptor)], output);
    actions, t := RequestAlone(resolve, s, id, n, pid, descriptor, output, answers);
    P2m.ReservationsAreApart(FlowsOf(s), n, source, destination, IntoLocalized(resolve, destination, n));
    P2m.PeerElsewhereIsAnswered(resolve, FlowsOf(s), PoliciesOf(s), n, source, destination,
                                Provenance.GetProv(n, s.nodes[n].prov, source), answers,
                                t.ops[id].phase.Granted?, FlowsOf(t));
  }

  const REFUSING := [Enrol(HERE, 1, 3, 0, "", NEAR.fd), Operate(THERE, Compliance.SetIntegrity(FAR, 1))]

  lemma RefusingSetup() returns (s: State)
    ensures s == Exec(TwoNodes, START, REFUSING) && s.ops == map[]
    ensures s.nodes.Keys == {HERE, THERE} && s.nodes[HERE].enrolled == map[(1, 3) := (WORKER, NEAR)]
    ensures FlowsOf(s) == map[HERE := map[], THERE := map[]]
    ensures s.nodes[HERE].prov == map[] && s.nodes[HERE].flows == map[]
    ensures PoliciesOf(s) == map[HERE := map[], THERE := map[FAR := Compliance.DEFAULT_POLICY.(integrity := 1)]]
  {
    var u := Next(TwoNodes, START, REFUSING[0]);
    s := Next(TwoNodes, u, REFUSING[1]);
    assert REFUSING == [REFUSING[0]] + [REFUSING[1]];
    ExecInTurn(TwoNodes, START, [REFUSING[0]], [REFUSING[1]]);
  }

  /** A writer whose peer demands more integrity than it has is denied, and the peer's end stays reserved. */
  lemma OrphanIsReachable() returns (actions: seq<Action>, t: State)
    ensures Initial(START) && Admissible(TwoNodes, actions)
    ensures t == Exec(TwoNodes, START, actions) && Inv(TwoNodes, t) && Orphaned(t, 0)
  {
    var s := RefusingSetup();
    var refs := Provenance.GetProv(HERE, s.nodes[HERE].prov, WORKER);
    assert IntoLocalized(TwoNodes, NEAR, HERE) == LocalizedResource(THERE, FAR);
    assert LocalizedResource(HERE, WORKER) in refs;
    assert !P2m.PassesAtItsNode(PoliciesOf(s), LocalizedResource(HERE, WORKER), LocalizedResource(THERE, FAR), map[]);
    var rest;
    rest, t := DenialOrphansExactly(TwoNodes, s, 0, HERE, 1, 3, true, map[]);
    actions := REFUSING + rest;
    ExecInTurn(TwoNodes, START, REFUSING, rest);
    OnlyIsAdmissible(TwoNodes, REFUSING, rest, 0);
    InitialInv(TwoNodes, START);
    RunsKeepInv(TwoNodes, START, actions);
  }

  // ---------------------------------------------------------------- deleted targets

  /** At any moment of any run: an undisturbed request to a deleted target is granted if and only if its source has
      no references at all, and the peer's end, if there is one on another node, could be reserved. */
  lemma DeletedTargetIsGrantedAlone(resolve: Resolver, first: State, before: seq<Action>, s: State,
                                    id: OpId, n: NodeId, pid: int, descriptor: int, output: bool, answers: Answers)
    returns (actions: seq<Action>, t: State)
    requires Initial(first) && Admissible(resolve, before) && s == Exec(resolve, first, before)
    requires id !in s.ops && n in s.nodes && (pid, descriptor) in s.nodes[n].enrolled
    requires var (source, destination) := P2m.Ends(s.nodes[n].enrolled[(pid, descriptor)], output);
             var target := IntoLocalized(resolve, destination, n);
             && Sequencer.MayReserve(s.nodes[n].flows, source, destination)
             && target.nodeId in s.nodes && PolicyOf(s, target).IsDeleted()
    ensures t == Exec(resolve, s, actions) && Only(actions, id) && id in t.ops
    ensures var (source, destination) := P2m.Ends(s.nodes[n].enrolled[(pid, descriptor)], output);
            var target := IntoLocalized(resolve, destination, n);
            t.ops[id].phase.Granted? <==>
              && ProvOf(s, LocalizedResource(n, source)) == {}
              && (P2m.Unheld(FlowsOf(s), n, source, destination, target) ==> target.nodeId == n)
    ensures t.ops[id].node == n && PoliciesOf(t) == PoliciesOf(s)
    ensures t.ops[id].destination == P2m.Ends(s.nodes[n].enrolled[(pid, descriptor)], output).1
  {
    var (source, destination) := P2m.Ends(s.nodes[n].enrolled[(pid, descriptor)], output);
    var refs := ProvOf(s, LocalizedResource(n, source));
    actions, t := RequestAlone(resolve, s, id, n, pid, descriptor, output, answers);
    forall x | x in refs
      ensures !x.resource.IsStream()
    {
      ReferencesAreNoStreams(resolve, first, before, x, LocalizedResource(n, source));
    }
    P2m.DeletedTargetIsGrantedExactly(resolve, FlowsOf(s), PoliciesOf(s), n, source, destination, refs, answers,
                                      t.ops[id].phase.Granted?, FlowsOf(t));
  }

  lemma SamePolicy(s: State, t: State, x: LocalizedResource)
    requires PoliciesOf(t) == PoliciesOf(s)
    ensures PolicyOf(t, x) == PolicyOf(s, x)
  {
    assert x.nodeId in s.nodes <==> x.nodeId in PoliciesOf(s);
    assert x.nodeId in t.nodes <==> x.nodeId in PoliciesOf(t);
    assert x.nodeId in s.nodes ==> s.nodes[x.nodeId].policies == PoliciesOf(s)[x.nodeId];
    assert x.nodeId in t.nodes ==> t.nodes[x.nodeId].policies == PoliciesOf(t)[x.nodeId];
  }

  const DELETING := [Enrol(HERE, 1, 3, 0, "", NEAR.fd), Operate(HERE, Compliance.SetDeleted(WORKER))]

  lemma DeletingSetup() returns (s: State)
    ensures s == Exec(TwoNodes, START, DELETING) && s.ops == map[]
    ensures s.nodes.Keys == {HERE, THERE} && s.nodes[HERE].enrolled == map[(1, 3) := (WORKER, NEAR)]
    ensures s.nodes[HERE].flows == map[] && s.nodes[HERE].prov == map[]
    ensures PolicyOf(s, LocalizedResource(HERE, WORKER)).IsDeleted()
  {
    var u := Next(TwoNodes, START, DELETING[0]);
    s := Next(TwoNodes, u, DELETING[1]);
    assert DELETING == [DELETING[0]] + [DELETING[1]];
    ExecInTurn(TwoNodes, START, [DELETING[0]], [DELETING[1]]);
  }

  /** A deleted process is granted to read a stream through which nothing was sent yet. */
  lemma DeletedTargetIsReachable() returns (actions: seq<Action>, t: State)
    ensures Initial(START) && Admissible(TwoNodes, actions) && t == Exec(TwoNodes, START, actions)
    ensures 0 in t.ops && t.ops[0].phase.Granted? && t.ops[0].Target(TwoNodes) == LocalizedResource(HERE, WORKER)
    ensures PolicyOf(t, LocalizedResource(HERE, WORKER)).IsDeleted()
  {
    var s := DeletingSetup();
    var rest;
    rest, t := DeletedTargetIsGrantedAlone(TwoNodes, START, DELETING, s, 0, HERE, 1, 3, false, map[]);
    actions := DELETING + rest;
    ExecInTurn(TwoNodes, START, DELETING, rest);
    OnlyIsAdmissible(TwoNodes, DELETING, rest, 0);
    SamePolicy(s, t, LocalizedResource(HERE, WORKER));
  }

  // ---------------------------------------------------------------- requests overtaken by a deletion

  lemma DeletedNow(resolve: Resolver, s: State, x: LocalizedResource) returns (t: State)
    requires x.nodeId in s.nodes
    ensures t == Exec(resolve, s, [Operate(x.nodeId, Compliance.SetDeleted(x.resource))])
    ensures PolicyOf(t, x).IsDeleted() && t.ops == s.ops && t.nodes.Keys == s.nodes.Keys
    ensures forall y :: ProvOf(t, y) == ProvOf(s, y)
  {
    var a := Operate(x.nodeId, Compliance.SetDeleted(x.resource));
    t := DoOperate(s, x.nodeId, a.update);
    ExecOne(resolve, s, a);
  }

  lemma ReportedAfterwards(resolve: Resolver, s: State, id: OpId, x: LocalizedResource)
    returns (actions: seq<Action>, t: State)
    requires In(s, id, Granted) && Reaches(resolve, s, s.ops[id]) && x in ProvOf(s, s.ops[id].Source())
    ensures t == Exec(resolve, s, actions) && Only(actions, id)
    ensures PolicyOf(t, x) == PolicyOf(s, x) && x in ProvOf(t, s.ops[id].Target(resolve))
  {
    var op, target := s.ops[id], s.ops[id].Target(resolve);
    actions, t := ReportAlone(resolve, s, id);
    SamePolicy(s, t, x);
    assert StoresOf(t) == P2m.Updated(StoresOf(s), op.node, target.nodeId, op.source, target.resource);
    assert t.nodes[target.nodeId].prov == StoresOf(t)[target.nodeId];
    Provenance.UpdateIsUnion(target.nodeId, s.nodes[target.nodeId].prov, ProvOf(s, op.Source()),
                             target.resource, target.resource);
  }

  /** A grant is recorded whatever was deleted since: deleting any reference of its source and then reporting makes
      the target derived from the deleted resource. */
  lemma GrantOutlivesDeletion(resolve: Resolver, s: State, id: OpId, x: LocalizedResource)
    returns (actions: seq<Action>, t: State)
    requires In(s, id, Granted) && Reaches(resolve, s, s.ops[id])
    requires x in ProvOf(s, s.ops[id].Source()) && x.nodeId in s.nodes
    ensures t == Exec(resolve, s, [Operate(x.nodeId, Compliance.SetDeleted(x.resource))] + actions) && Only(actions, id)
    ensures PolicyOf(t, x).IsDeleted() && x in ProvOf(t, s.ops[id].Target(resolve))
  {
    var u := DeletedNow(resolve, s, x);
    actions, t := ReportedAfterwards(resolve, u, id, x);
    ExecInTurn(resolve, s, [Operate(x.nodeId, Compliance.SetDeleted(x.resource))], actions);
  }

  const FILE := Descriptor(File("/data"))
  const ASKING := [
    Enrol(HERE, 1, 3, 0, "", FILE.fd),
    Operate(HERE, Compliance.EnforceConsent(FILE, true)),
    Request(0, HERE, 1, 3, false),
    NoPeerPolicy(0),
    Collect(0),
    CheckLocal(0)]

  /** The request to read the file after so many actions: the rules are met, its owner is asked. */
  function Reading(k: nat): Op {
    Op(HERE, FILE, WORKER,
       if k <= 3 then Reserved else if k == 4 then Targeted else if k == 5 then Collected else Asking, false, None,
       if k <= 4 then {} else {LocalizedResource(HERE, FILE)}, {},
       if k <= 5 then map[] else map[HERE := {FILE}], {})
  }

  const GUARDED := Node(map[(1, 3) := (WORKER, FILE)], map[WORKER := FILE], map[],
                        map[FILE := Compliance.DEFAULT_POLICY.(consent := true)])

  function Guarded(k: nat): State {
    if k <= 2 then State(map[HERE := GUARDED.(flows := map[]), THERE := EMPTY], map[], [])
    else State(map[HERE := GUARDED, THERE := EMPTY], map[0 := Reading(k)], [])
  }

  lemma GuardedStarts()
    ensures Exec(TwoNodes, START, ASKING[..2]) == Guarded(2)
  {
    var u := Next(TwoNodes, START, ASKING[0]);
    assert ASKING[..2] == [ASKING[0]] + [ASKING[1]];
    ExecOne(TwoNodes, START, ASKING[0]);
    ExecOne(TwoNodes, u, ASKING[1]);
    ExecInTurn(TwoNodes, START, [ASKING[0]], [ASKING[1]]);
  }

  lemma GuardedRequests()
    ensures Next(TwoNodes, Guarded(2), ASKING[2]) == Guarded(3)
  {
  }

  lemma GuardedFetches(k: nat)
    requires 3 <= k < 5
    ensures Next(TwoNodes, Guarded(k), ASKING[k]) == Guarded(k + 1)
  {
    assert Next(TwoNodes, Guarded(k), ASKING[k]).ops == Guarded(k + 1).ops;
  }

  lemma GuardedAsks()
    ensures Next(TwoNodes, Guarded(5), ASKING[5]) == Guarded(6)
  {
    var op := Reading(5);
    assert Provenance.RefsAt(op.refs, HERE) == {FILE};
    assert RulesAt(TwoNodes, Guarded(5), op, HERE);
    assert AskedAt(Guarded(5), op, HERE) == {FILE};
    assert Next(TwoNodes, Guarded(5), ASKING[5]).ops == Guarded(6).ops;
  }

  lemma GuardedWaits()
    ensures Exec(TwoNodes, START, ASKING) == Guarded(6)
  {
    GuardedStarts();
    for k := 2 to 6
      invariant Exec(TwoNodes, START, ASKING[..k]) == Guarded(k)
    {
      assert ASKING[..k + 1] == ASKING[..k] + [ASKING[k]];
      ExecInTurn(TwoNodes, START, ASKING[..k], [ASKING[k]]);
      ExecOne(TwoNodes, Guarded(k), ASKING[k]);
      GuardedStep(k);
    }
    assert ASKING[..6] == ASKING;
  }

  lemma GuardedStep(k: nat)
    requires 2 <= k < 6
    ensures Next(TwoNodes, Guarded(k), ASKING[k]) == Guarded(k + 1)
  {
    if k == 2 {
      GuardedRequests();
    } else if k < 5 {
      GuardedFetches(k);
    } else {
      GuardedAsks();
    }
  }

  lemma OwnerAgrees(s: State) returns (t: State)
    requires s.ops == Guarded(6).ops && s.nodes.Keys == {HERE, THERE}
    ensures t == Exec(TwoNodes, s, [ConsentLocal(0, {FILE})]) && t.nodes == s.nodes
    ensures In(t, 0, Granted) && t.ops[0].Source() == LocalizedResource(HERE, FILE)
    ensures t.ops[0].destination == WORKER && t.ops[0].node == HERE
  {
    t := DoConsentLocal(s, 0, {FILE});
    ExecOne(TwoNodes, s, ConsentLocal(0, {FILE}));
    assert RemoteNodes(Reading(6).refs, HERE) == {};
  }

  /** A process asks to read a file; its policies are read and the owner is asked; the operator deletes the file; the
      owner agrees; the flow is granted and recorded. */
  lemma DeletionIsOvertaken() returns (actions: seq<Action>, k: nat, t: State)
    ensures Initial(START) && Admissible(TwoNodes, actions) && t == Exec(TwoNodes, START, actions)
    ensures var x, y := LocalizedResource(HERE, FILE), LocalizedResource(HERE, WORKER);
            && DeletesAt(TwoNodes, START, actions, k, x)
            && InFlight(TwoNodes, Exec(TwoNodes, START, actions[..k]), 0, x, y)
            && x !in ProvOf(Exec(TwoNodes, START, actions[..k]), y)
            && PolicyOf(t, x).IsDeleted() && x in ProvOf(t, y)
  {
    var x := LocalizedResource(HERE, FILE);
    GuardedWaits();
    k := |ASKING|;
    var delete := Operate(HERE, Compliance.SetDeleted(FILE));
    var d := DeletedNow(TwoNodes, Guarded(6), x);
    assert x in ProvOf(Guarded(6), x);
    var report;
    report, t := AgreedAfterwards(d);
    actions := ASKING + [delete] + ([ConsentLocal(0, {FILE})] + report);
    ExecInTurn(TwoNodes, START, ASKING, [delete]);
    ExecInTurn(TwoNodes, START, ASKING + [delete], [ConsentLocal(0, {FILE})] + report);
    OvertakenIsAdmissible(delete, ConsentLocal(0, {FILE}), report);
    assert actions[..k] == ASKING && actions[k] == delete;
  }

  lemma AgreedAfterwards(d: State) returns (report: seq<Action>, t: State)
    requires d.ops == Guarded(6).ops && d.nodes.Keys == {HERE, THERE}
    requires LocalizedResource(HERE, FILE) in ProvOf(d, LocalizedResource(HERE, FILE))
    requires PolicyOf(d, LocalizedResource(HERE, FILE)).IsDeleted()
    ensures t == Exec(TwoNodes, d, [ConsentLocal(0, {FILE})] + report) && Only(report, 0)
    ensures PolicyOf(t, LocalizedResource(HERE, FILE)).IsDeleted()
    ensures LocalizedResource(HERE, FILE) in ProvOf(t, LocalizedResource(HERE, WORKER))
  {
    var x := LocalizedResource(HERE, FILE);
    var g := OwnerAgrees(d);
    SameProv(d, g, x);
    SamePolicy(d, g, x);
    report, t := ReportedAfterwards(TwoNodes, g, 0, x);
    ExecInTurn(TwoNodes, d, [ConsentLocal(0, {FILE})], report);
  }

  lemma OvertakenIsAdmissible(delete: Action, consent: Action, report: seq<Action>)
    requires delete.Operate? && consent.ConsentLocal? && Only(report, 0)
    ensures Admissible(TwoNodes, ASKING + [delete] + ([consent] + report))
  {
    var first := ASKING + [delete] + [consent];
    assert forall i :: 0 <= i < |first| && first[i].Enrol? ==> first[i] == ASKING[0];
    OnlyIsAdmissible(TwoNodes, first, report, 0);
    assert ASKING + [delete] + ([consent] + report) == first + report;
  }

  // ---------------------------------------------------------------- reports that cannot be delivered

  /** A writer is granted, and its report does not reach the peer: both ends stay reserved, and its grant is gone. */
  lemma UndeliveredIsReachable() returns (actions: seq<Action>, t: State)
    ensures Initial(START) && Admissible(TwoNodes, actions) && t == Exec(TwoNodes, START, actions)
    ensures Inv(TwoNodes, t) && In(t, 0, Undelivered)
  {
    var first, u := WriterIsGranted();
    var report;
    report, t := FailAlone(TwoNodes, u, 0);
    actions := first + report;
    ExecInTurn(TwoNodes, START, first, report);
    OnlyIsAdmissible(TwoNodes, first, report, 0);
    InitialInv(TwoNodes, START);
    RunsKeepInv(TwoNodes, START, actions);
  }

  const WRITES := Enrol(HERE, 1, 3, 0, "", NEAR.fd)

  lemma WriterIsEnrolled() returns (s: State)
    ensures s == Exec(TwoNodes, START, [WRITES]) && Clean(s)
    ensures s.ops == map[] && s.nodes.Keys == {HERE, THERE}
    ensures (1, 3) in s.nodes[HERE].enrolled && s.nodes[HERE].enrolled[(1, 3)] == (WORKER, NEAR)
    ensures ProvOf(s, LocalizedResource(HERE, WORKER)) == {LocalizedResource(HERE, WORKER)}
  {
    s := Next(TwoNodes, START, WRITES);
    ExecOne(TwoNodes, START, WRITES);
    Enrolled(START, s, WRITES);
    CleanTables(START, s);
    SameProv(START, s, LocalizedResource(HERE, WORKER));
  }

  lemma WriterIsGranted() returns (actions: seq<Action>, u: State)
    ensures Admissible(TwoNodes, actions) && u == Exec(TwoNodes, START, actions)
    ensures In(u, 0, Granted) && u.ops[0].destination == NEAR
  {
    var s := WriterIsEnrolled();
    var request;
    request, u := GrantedAlone(s, 0, HERE, 1, WORKER, NEAR, true);
    actions := [WRITES] + request;
    ExecInTurn(TwoNodes, START, [WRITES], request);
    OnlyIsAdmissible(TwoNodes, [WRITES], request, 0);
  }

  // ---------------------------------------------------------------- leaked reservations

  /** Nothing is reserved and every policy is the default. */
  ghost predicate Clean(s: State) {
    forall n :: n in s.nodes ==> s.nodes[n].flows == map[] && s.nodes[n].policies == map[]
  }

  lemma DefaultsPass(s: State, refs: Provenance.References, target: LocalizedResource, answers: Answers)
    requires Clean(s) && target.nodeId in s.nodes && NodesOf(refs) <= s.nodes.Keys
    ensures P2m.AllPass(PoliciesOf(s), refs, target, answers)
  {
    forall x | x in refs
      ensures P2m.PassesAtItsNode(PoliciesOf(s), x, target, answers)
    {
      assert x.nodeId in NodesOf(refs);
    }
  }

  lemma CleanTables(s: State, t: State)
    requires FlowsOf(t) == FlowsOf(s) && PoliciesOf(t) == PoliciesOf(s)
    ensures t.nodes.Keys == s.nodes.Keys && (Clean(t) <==> Clean(s))
  {
    assert t.nodes.Keys == PoliciesOf(t).Keys && s.nodes.Keys == PoliciesOf(s).Keys;
    forall n | n in s.nodes
      ensures t.nodes[n].flows == s.nodes[n].flows && t.nodes[n].policies == s.nodes[n].policies
    {
      assert FlowsOf(t)[n] == FlowsOf(s)[n] && PoliciesOf(t)[n] == PoliciesOf(s)[n];
    }
  }

  lemma Enrolled(s: State, t: State, a: Action)
    requires a.Enrol? && a.node in s.nodes && t == Next(TwoNodes, s, a)
    ensures t.ops == s.ops && FlowsOf(t) == FlowsOf(s) && PoliciesOf(t) == PoliciesOf(s) && StoresOf(t) == StoresOf(s)
    ensures t.nodes.Keys == s.nodes.Keys
    ensures (a.pid, a.descriptor) in t.nodes[a.node].enrolled
         && t.nodes[a.node].enrolled[(a.pid, a.descriptor)]
            == (Process(a.pid, a.startTime, a.exePath), Descriptor(a.fd))
  {
  }

  /** From a clean state, an undisturbed flow over a stream to another node is granted, recorded there and leaves a
      clean state. */
  lemma CleanFlow(s: State, id: OpId, n: NodeId, pid: int, fd: Fd, output: bool)
    returns (actions: seq<Action>, t: State)
    requires Clean(s) && id !in s.ops && n in s.nodes
    requires var (source, destination) := P2m.Ends((Process(pid, 0, ""), Descriptor(fd)), output);
             var target := IntoLocalized(TwoNodes, destination, n);
             && target.nodeId in s.nodes && (target.resource.IsStream() ==> target.nodeId != n)
             && NodesOf(ProvOf(s, LocalizedResource(n, source))) <= s.nodes.Keys
    ensures t == Exec(TwoNodes, s, actions) && Clean(t)
    ensures t.ops.Keys == s.ops.Keys + {id} && t.nodes.Keys == s.nodes.Keys
    ensures var (source, destination) := P2m.Ends((Process(pid, 0, ""), Descriptor(fd)), output);
            var target := IntoLocalized(TwoNodes, destination, n);
            StoresOf(t) == P2m.Updated(StoresOf(s), n, target.nodeId, source, target.resource)
  {
    var (source, destination) := P2m.Ends((Process(pid, 0, ""), Descriptor(fd)), output);
    var target := IntoLocalized(TwoNodes, destination, n);
    var enrol := Enrol(n, pid, 3, 0, "", fd);
    var u := Next(TwoNodes, s, enrol);
    Enrolled(s, u, enrol);
    CleanTables(s, u);
    SameProv(s, u, LocalizedResource(n, source));
    var request, v := GrantedAlone(u, id, n, pid, source, destination, output);
    var report;
    report, t := ReportAlone(TwoNodes, v, id);
    actions := [enrol] + request + report;
    ExecInTurn(TwoNodes, s, [enrol], request);
    ExecInTurn(TwoNodes, s, [enrol] + request, report);
    ReleasedBoth(u, v, t, n, source, destination, target);
  }

  lemma GrantedAlone(u: State, id: OpId, n: NodeId, pid: int, source: Resource, destination: Resource, output: bool)
    returns (actions: seq<Action>, v: State)
    requires Clean(u) && id !in u.ops && n in u.nodes && (pid, 3) in u.nodes[n].enrolled
    requires P2m.Ends(u.nodes[n].enrolled[(pid, 3)], output) == (source, destination)
    requires var target := IntoLocalized(TwoNodes, destination, n);
             && target.nodeId in u.nodes && (target.resource.IsStream() ==> target.nodeId != n)
             && NodesOf(ProvOf(u, LocalizedResource(n, source))) <= u.nodes.Keys
    ensures v == Exec(TwoNodes, u, actions) && Only(actions, id)
    ensures v.ops.Keys == u.ops.Keys + {id} && In(v, id, Granted)
    ensures v.ops[id].node == n && v.ops[id].source == source && v.ops[id].destination == destination
    ensures PoliciesOf(v) == PoliciesOf(u) && StoresOf(v) == StoresOf(u)
    ensures var target := IntoLocalized(TwoNodes, destination, n);
            FlowsOf(v) == P2m.Reserved(P2m.PeerHeld(FlowsOf(u), target), n, source, destination)
  {
    var target := IntoLocalized(TwoNodes, destination, n);
    var refs := ProvOf(u, LocalizedResource(n, source));
    actions, v := RequestAlone(TwoNodes, u, id, n, pid, 3, output, map[]);
    CleanAnswer(u, n, source, destination, refs, v.ops[id].phase.Granted?, FlowsOf(v));
    assert v.nodes.Keys == PoliciesOf(v).Keys == u.nodes.Keys;
  }

  lemma CleanAnswer(u: State, n: NodeId, source: Resource, destination: Resource, refs: Provenance.References,
                    granted: bool, after: FlowTables)
    requires Clean(u) && n in u.nodes && NodesOf(refs) <= u.nodes.Keys
    requires var target := IntoLocalized(TwoNodes, destination, n);
             target.nodeId in u.nodes && (target.resource.IsStream() ==> target.nodeId != n)
    requires P2m.Answered(TwoNodes, FlowsOf(u), PoliciesOf(u), n, source, destination, refs, map[], granted, after)
    ensures granted
    ensures after == P2m.Reserved(P2m.PeerHeld(FlowsOf(u), IntoLocalized(TwoNodes, destination, n)),
                                  n, source, destination)
  {
    DefaultsPass(u, refs, IntoLocalized(TwoNodes, destination, n), map[]);
    P2m.PeerElsewhereIsAnswered(TwoNodes, FlowsOf(u), PoliciesOf(u), n, source, destination, refs, map[],
                                granted, after);
  }

  /** Releasing the two ends of a flow undoes reserving them. */
  lemma ReleaseUndoesReserve(flows: FlowTables, n: NodeId, source: Resource, destination: Resource,
                             target: LocalizedResource)
    requires n in flows && destination !in flows[n]
    requires target.resource.IsStream() && target.nodeId != n && PeerAvailable(flows, target)
    ensures var held := P2m.Reserved(P2m.PeerHeld(flows, target), n, source, destination);
            P2m.Dropped(P2m.Dropped(held, target), LocalizedResource(n, destination)) == flows
  {
    var held := P2m.Reserved(P2m.PeerHeld(flows, target), n, source, destination);
    assert held[target.nodeId] - {target.resource} == flows[target.nodeId];
    assert held[n] - {destination} == flows[n];
  }

  lemma ReleaseUndoesOwn(flows: FlowTables, n: NodeId, source: Resource, destination: Resource)
    requires n in flows && destination !in flows[n]
    ensures P2m.Dropped(P2m.Reserved(flows, n, source, destination), LocalizedResource(n, destination)) == flows
  {
    assert flows[n][destination := source] - {destination} == flows[n];
  }

  lemma ReleasedBoth(u: State, v: State, t: State, n: NodeId, source: Resource, destination: Resource,
                     target: LocalizedResource)
    requires Clean(u) && n in u.nodes && target.nodeId in u.nodes
    requires target == IntoLocalized(TwoNodes, destination, n) && (target.resource.IsStream() ==> target.nodeId != n)
    requires FlowsOf(v) == P2m.Reserved(P2m.PeerHeld(FlowsOf(u), target), n, source, destination)
    requires PoliciesOf(v) == PoliciesOf(u) && StoresOf(v) == StoresOf(u) && PoliciesOf(t) == PoliciesOf(v)
    requires P2m.Reported(TwoNodes, FlowsOf(v), StoresOf(v), n, source, destination, true, FlowsOf(t), StoresOf(t))
    ensures Clean(t) && t.nodes.Keys == u.nodes.Keys
    ensures StoresOf(t) == P2m.Updated(StoresOf(u), n, target.nodeId, source, target.resource)
  {
    if target.resource.IsStream() {
      ReleaseUndoesReserve(FlowsOf(u), n, source, destination, target);
    } else {
      ReleaseUndoesOwn(FlowsOf(u), n, source, destination);
    }
    CleanTables(u, t);
  }

  const STRANGER := Process(2, 0, "")

  /** A process of one node sends to a process of the other. */
  lemma Mixed() returns (actions: seq<Action>, s: State)
    ensures s == Exec(TwoNodes, START, actions) && Clean(s)
    ensures s.ops.Keys == {0, 1} && s.nodes.Keys == {HERE, THERE}
    ensures ProvOf(s, LocalizedResource(HERE, WORKER))
         == {LocalizedResource(HERE, WORKER), LocalizedResource(THERE, STRANGER)}
  {
    var first, u := CleanFlow(START, 0, THERE, 2, FAR.fd, true);
    SentAcross(u);
    var second;
    second, s := CleanFlow(u, 1, HERE, 1, NEAR.fd, false);
    actions := first + second;
    ExecInTurn(TwoNodes, START, first, second);
    Received(u, s);
  }

  lemma SentAcross(u: State)
    requires u.nodes.Keys == {HERE, THERE}
    requires StoresOf(u) == P2m.Updated(StoresOf(START), THERE, HERE, STRANGER, NEAR)
    ensures ProvOf(u, LocalizedResource(HERE, NEAR)) == {LocalizedResource(THERE, STRANGER)}
    ensures ProvOf(u, LocalizedResource(HERE, WORKER)) == {LocalizedResource(HERE, WORKER)}
    ensures NodesOf(ProvOf(u, LocalizedResource(HERE, NEAR))) <= u.nodes.Keys
  {
    assert StoresOf(START)[THERE] == map[] && StoresOf(START)[HERE] == map[];
    assert u.nodes[HERE].prov == StoresOf(u)[HERE];
  }

  lemma Received(u: State, s: State)
    requires u.nodes.Keys == s.nodes.Keys == {HERE, THERE}
    requires ProvOf(u, LocalizedResource(HERE, NEAR)) == {LocalizedResource(THERE, STRANGER)}
    requires ProvOf(u, LocalizedResource(HERE, WORKER)) == {LocalizedResource(HERE, WORKER)}
    requires StoresOf(s) == P2m.Updated(StoresOf(u), HERE, HERE, NEAR, WORKER)
    ensures ProvOf(s, LocalizedResource(HERE, WORKER))
         == {LocalizedResource(HERE, WORKER), LocalizedResource(THERE, STRANGER)}
  {
    assert s.nodes[HERE].prov == StoresOf(s)[HERE] && u.nodes[HERE].prov == StoresOf(u)[HERE];
  }

  /** A process with a reference on another node writes to a stream of its own node whose other end cannot be
      reserved: the request returns without releasing its own reservation. */
  lemma LeakIsReachable() returns (actions: seq<Action>, t: State)
    ensures Initial(START) && t == Exec(TwoNodes, START, actions)
    ensures 2 in t.ops && t.ops[2].phase.Leaked? && Held(t, t.ops[2].Own()) == Some(WORKER)
  {
    var first, s := Mixed();
    var enrol := Enrol(HERE, 1, 4, 0, "", LOOP.fd);
    var u := Next(TwoNodes, s, enrol);
    Enrolled(s, u, enrol);
    CleanTables(s, u);
    SameProv(s, u, LocalizedResource(HERE, WORKER));
    var request;
    request, t := LoopAlone(u);
    actions := first + [enrol] + request;
    ExecInTurn(TwoNodes, START, first, [enrol]);
    ExecInTurn(TwoNodes, START, first + [enrol], request);
  }

  lemma LoopAlone(u: State) returns (actions: seq<Action>, t: State)
    requires Clean(u) && u.nodes.Keys == {HERE, THERE} && 2 !in u.ops
    requires (1, 4) in u.nodes[HERE].enrolled && u.nodes[HERE].enrolled[(1, 4)] == (WORKER, LOOP)
    requires ProvOf(u, LocalizedResource(HERE, WORKER))
          == {LocalizedResource(HERE, WORKER), LocalizedResource(THERE, STRANGER)}
    ensures t == Exec(TwoNodes, u, actions)
    ensures 2 in t.ops && t.ops[2].phase.Leaked? && Held(t, t.ops[2].Own()) == Some(WORKER)
  {
    actions, t := RequestAlone(TwoNodes, u, 2, HERE, 1, 4, true, map[]);
    LoopLeaks(u, t.ops[2], FlowsOf(t));
    assert t.nodes.Keys == PoliciesOf(t).Keys == PoliciesOf(u).Keys;
    assert t.nodes[HERE].flows == FlowsOf(t)[HERE];
  }

  lemma LoopLeaks(u: State, op: Op, after: FlowTables)
    requires Clean(u) && u.nodes.Keys == {HERE, THERE}
    requires ProvOf(u, LocalizedResource(HERE, WORKER))
          == {LocalizedResource(HERE, WORKER), LocalizedResource(THERE, STRANGER)}
    requires EndsAs(TwoNodes, u, HERE, WORKER, LOOP, map[], op)
    requires P2m.Answered(TwoNodes, FlowsOf(u), PoliciesOf(u), HERE, WORKER, LOOP,
                          ProvOf(u, LocalizedResource(HERE, WORKER)), map[], op.phase.Granted?, after)
    ensures op.phase.Leaked? && op.Own() == LocalizedResource(HERE, LOOP)
    ensures HERE in after && LOOP in after[HERE] && after[HERE][LOOP] == WORKER
  {
    var refs, target := ProvOf(u, LocalizedResource(HERE, WORKER)), LocalizedResource(HERE, LOOP);
    assert IntoLocalized(TwoNodes, LOOP, HERE) == target;
    assert P2m.Unheld(FlowsOf(u), HERE, WORKER, LOOP, target);
    assert LocalizedResource(THERE, STRANGER) in refs && THERE in NodesOf(refs);
    assert NodeGrants(PoliciesOf(u), HERE, refs, target, None, map[]);
  }

  /** Such a request takes no further step. */
  lemma {:induction false} LeakedStays(resolve: Resolver, s: State, actions: seq<Action>, id: OpId)
    requires id in s.ops && s.ops[id].phase.Leaked?
    ensures id in Exec(resolve, s, actions).ops && Exec(resolve, s, actions).ops[id] == s.ops[id]
    decreases |actions|
  {
    if actions != [] {
      LeakedIsIdle(resolve, s, actions[0], id);
      LeakedStays(resolve, Next(resolve, s, actions[0]), actions[1..], id);
    }
  }

  lemma LeakedIsIdle(resolve: Resolver, s: State, a: Action, id: OpId)
    requires id in s.ops && s.ops[id].phase.Leaked?
    ensures id in Next(resolve, s, a).ops && Next(resolve, s, a).ops[id] == s.ops[id]
  {
    if ActsOn(a, id) {
      RestStays(resolve, s, a, id);
    }
  }
}

# trace2e: flow authorisation in Dafny

trace2e is a middleware that sits between processes and their files and network
streams. Before a process reads or writes, it asks its node for a grant. The node
reserves the flow, collects everything the source was derived from (its
*references*, resources of this and of other nodes), has every node that owns
some of them compare their policies with the policy of the destination, and
grants or denies. After the operation a report records the references at the
destination, on this node or on the node at the other end of a stream, and
releases the flow. This project models that protocol and the services under it,
and proves what they keep.

`dafny verify dfyconfig.toml` verifies everything.

## How it is organised

Services whose methods update shared tables are classes with those tables as
fields; each method is specified by functions over the tables, and lemmas say what
these functions mean.

| module | what it models |
|---|---|
| `Naming`, `ResourceText` | resources, the other end of a stream, printing and parsing |
| `Sequencer`, `WaitingQueue` | the reservation table as reader/writer locks, and the queues above it |
| `Provenance` | the store of references, and ancestry along a history of flows |
| `Compliance` | policies, their guarded updates, the evaluation of a flow |
| `Consent` | decisions looked up from specific to broad, and requests that wait for one |
| `M2m`, `P2m` | what a node does for other nodes and for its processes; the loopback transport; one call at a time |
| `Protocol` | all nodes and all requests as one transition system, cut at the await points |
| `Ownership`, `Recording`, `Labels`, `Deletion` | invariants of that system |
| `Theorems` | the main results over every run |
| `Mediation`, `Shielding`, `Settled` | further results over every run: no reference without an evaluation, deleted destinations, the distributed evaluation against a central one |
| `Alone` | the calls of `P2m` are runs of `Protocol` |
| `SameNode` | what happens when both ends of a stream are on one node |
| `Findings` | what is not guaranteed: exact conditions, and runs that show it |
| `Wire` | the forms in which resources, policies and references travel |

`Protocol.Next` is a total function: an action that is not enabled changes
nothing, so "every run" is every sequence of actions from an initial state, any
number of nodes and requests interleaving freely with operators' updates and
with calls to other nodes that fail.

## Assumptions

- A section of the source that does not await is one step. The source checks and
  then inserts in concurrent maps without a lock around both.
- An evaluation is two steps on each node: the policies are read, which decides the
  rules and whom to ask, and later the last owner answers. "Past a node" means past
  the first of the two. With the rules broken the answer is a denial whatever the
  owners say, so such a request counts as refused at once; when its reservation is
  released is left open.
- Identifiers of grants are fresh. The source takes the time in nanoseconds.
- A request to another node arrives once and is answered, or fails as one of the
  modelled errors; no call is cut off by a timeout.
- Runs in `Theorems` enrol only streams whose peer socket parses and names another
  node (`Protocol.Admissible`). `SameNode` shows that this is needed;
  `P2m.Answered` says what a request comes to without it.
- Parsing a socket address is a parameter, `Naming.Resolver`. Processes are opaque
  values. The consents that arrive are parameters of an evaluation;
  `Consent.EvaluationNeedsDecisions` says which they are once nobody has to wait.
- The waiting queue is not part of `Protocol`: there a reservation that cannot be
  made is simply not made. Storing default policies is not part of it either,
  since no lookup and no verdict depends on it (`Compliance.VerdictNeedsLookupsOnly`).
- In the theorem about labels policies keep their confidentiality and integrity.
  Deletion and enforcement of consent may happen at any time.

## What the proofs found

- A denial releases the own reservation only; what was reserved at the peer stays
  reserved for good (`Findings.DenialOrphansExactly`, `Findings.OrphanIsReachable`,
  `Theorems.DenialBlocksPeerForever`).
- With both ends of a stream on one node a failed reservation of the peer's end is
  dropped and the flow may still be granted; its report can then change references
  that another request has already read (`SameNode`). If some references belong to
  other nodes the same request returns early and keeps even its own reservation
  (`Alone.EndsAs` has the condition, `Findings.LeakIsReachable` a run).
- A report that cannot reach the peer fails after its grant was taken out, so
  both ends of the stream stay reserved for good (`P2m.P2mApiService.IoReport`,
  `Theorems.FailedReportBlocksForever`, `Findings.UndeliveredIsReachable`).
- An evaluation without non-stream sources grants a deleted destination: a deleted
  process may read a stream through which nothing was sent yet
  (`Findings.DeletedTargetIsGrantedAlone`, `Findings.DeletedTargetIsReachable`).
- A request may be overtaken by a deletion: once the policies are read it is granted
  and recorded although its source is deleted while the owner is asked
  (`Findings.DeletionIsOvertaken`) or after the grant (`Findings.GrantOutlivesDeletion`).
  Only requests for which the node of the deleted resource had read its policies by
  then can do so (`Theorems.DeletionCascade`).
- Without a limit of retries there is a single attempt, and no queue. A limit of
  `u32::MAX` wraps to no attempt at all; a build with overflow checks panics instead
  (`WaitingQueue.WaitingQueueService.Call`).
- A consent request listens to its destination and that one's parent. With three
  levels a decision about the third can be missed (`Consent.BroadDecisionIsMissed`).
- A flow from a resource to itself would be both written and read
  (`Sequencer.ReserveKeepsBipartiteExactly`); enrolment never makes one.
- A second deletion of a resource is answered with an error
  (`M2m.M2mLoopback.BroadcastDeletion`).

## Model

| member | source | states |
|---|---|---|
| `Theorems.NoChainWritesDown` | crates/trace2e_core/src/traceability/api/p2m.rs:291-492 | no write-down over whole distributed runs: with labels held fixed, whenever a chain of recorded flows leads from x to y, on any nodes and through any streams, x is not secret while y is public, and the integrity of x is at least that of y |
| `Theorems.ProvenanceIsExact` | crates/trace2e_core/src/traceability/services/provenance.rs:36-89 | after any run the references of a resource are exactly its non-stream ancestors along the flows recorded so far in time order, across nodes and through streams (if and only if) |
| `Theorems.SourceIsStableOverRuns` | crates/trace2e_core/src/traceability/api/p2m.rs:304-488 | from the reservation of a flow to its release no action of any request or operator on any node changes the references of its source |
| `Mediation.EveryReferenceWasJudged` | crates/trace2e_core/src/traceability/api/p2m.rs:291-492 | complete mediation over every run, whatever operators do: each reference of y beyond itself met the three rules when its own node read its policies for a request to y, against a policy y had while that request was under way; and where consent was enforced at that moment its owner consented to that request later |
| `Mediation.PastWasEvaluated` | crates/trace2e_core/src/traceability/services/compliance.rs:388-481 | a request that is past the node of one of its references was let through when that node read its policies, and the owner consented since or is still being asked, if consent was enforced then |
| `Mediation.ActionMediates` | crates/trace2e_core/src/traceability/api/p2m.rs:347-423 | a request comes past the node of a reference by that node reading its policies and by no other action, and leaves the owners asked there only by their consent |
| `Mediation.PolicyWasTargets` | crates/trace2e_core/src/traceability/api/p2m.rs:325-335 | the policy a request evaluates against is one its target had at some moment while the request was under way |
| `Recording.RecordedFlow` | crates/trace2e_core/src/traceability/api/p2m.rs:447-488 | a flow is recorded for a request in its report, at a reserved destination, and what it adds is exactly the set of references the request had collected |
| `Theorems.ReservationsAreOwned` | crates/trace2e_core/src/traceability/api/m2m.rs:104-193 | in every reachable state an entry of a reservation table exists if and only if some request claims it, and never two requests claim the same one |
| `Theorems.GrantsHoldBothEnds` | crates/trace2e_core/src/traceability/api/p2m.rs:317-347 | a granted or reporting flow holds its own destination and, for a stream, the peer's end with the source Null |
| `Theorems.DenialBlocksPeerForever` | crates/trace2e_core/src/traceability/api/p2m.rs:424-438 | what a denied request holds at the peer it holds for good: in every later state that stream end can be neither read nor written |
| `Findings.DenialOrphansExactly` | crates/trace2e_core/src/traceability/api/p2m.rs:317-438 | with the peer on another node an undisturbed request is granted if and only if the peer's end is free and all references pass, and if denied goes on holding that end if and only if it was free |
| `Findings.OrphanIsReachable` | crates/trace2e_core/src/traceability/api/p2m.rs:424-438 | a concrete run that ends with such a hold |
| `Theorems.DeletionRefusesLateRequests` | crates/trace2e_core/src/traceability/services/compliance.rs:422-450 | after an operator deletes x at any moment of any run, no request is ever granted for a source derived from x unless the node of x had read its policies for it and the rules were met before the deletion, whether or not consents were still awaited |
| `Theorems.DeletionBarsRequest` | crates/trace2e_core/src/traceability/services/compliance.rs:255-262 | a request that has not passed the node of a deleted resource never does so later, whatever others do |
| `Theorems.DeletionCascade` | crates/trace2e_core/src/traceability/services/compliance.rs:422-450 | after an operator deletes x at any moment of any run, x stays deleted, what is derived from it stays so, and whatever becomes derived from it is the target of a request for which the node of x had read its policies before the deletion, waiting for consents or past them |
| `Shielding.DeletedDestinationIsShielded` | crates/trace2e_core/src/traceability/services/compliance.rs:403-434 | after an operator deletes y at any moment of any run, whatever becomes a reference of y comes from a request under way at the deletion that had met the rules at the node of that reference or held an earlier policy of y |
| `Shielding.InFlightToWasInFlightTo` | crates/trace2e_core/src/traceability/services/compliance.rs:422-434 | no request comes into that position once y is deleted |
| `Theorems.DeletionSeals` | crates/trace2e_core/src/traceability/services/compliance.rs:422-450 | if there is no such request, exactly what was derived from x at the deletion is derived from it for good, and no request for any of it holds a grant |
| `Findings.GrantOutlivesDeletion` | crates/trace2e_core/src/traceability/api/p2m.rs:447-488 | from any state with a grant: deleting any reference of its source and then reporting makes the target derived from a deleted resource |
| `Findings.DeletionIsOvertaken` | crates/trace2e_core/src/traceability/services/compliance.rs:404-481 | a concrete run in which a file is deleted while its owner is asked, the owner agrees, and the reader becomes derived from the deleted file |
| `Theorems.DeletionContains` | crates/trace2e_core/src/traceability/services/compliance.rs:628-641 | containment from any state of the invariant, with the policy of x unchanged for the rest of the run |
| `Settled.GrantedExactlyIfAllPass` | crates/trace2e_core/src/traceability/api/p2m.rs:317-423 | the distributed evaluation is a central one: in every run, whatever operators did before the request and do to other resources since, a decided request is granted if and only if the peer's policy was obtained, if there is a peer, and every collected reference passes the four rules, each policy read from its own node |
| `Settled.GrantedExactlyAfterAnything` | crates/trace2e_core/src/traceability/api/p2m.rs:317-423 | the same for a request made after any run at all |
| `Settled.NodeAnswersCentrally` | crates/trace2e_core/src/traceability/services/compliance.rs:388-481 | the answer of one node for its part of the references, rules when the policies are read and consents later, is the conjunction of the global rule over exactly that part |
| `Alone.RequestAlone` | crates/trace2e_core/src/traceability/api/p2m.rs:291-446 | an undisturbed request is a run of that request's actions with the outcome for the tables that the method IoRequest promises; exactly when it holds the peer's end in the end, and when it returned without releasing anything |
| `Alone.FailedCallDenies` | crates/trace2e_core/src/transport/loopback.rs:304-309 | a call to another node that fails denies the request, which gives back its own reservation only |
| `Alone.ReportAlone` | crates/trace2e_core/src/traceability/api/p2m.rs:447-488 | an undisturbed report of a grant is a run of that request's actions with the outcome that the method IoReport promises, and fails before delivery exactly if the peer's node is not there |
| `Theorems.FailedReportBlocksForever` | crates/trace2e_core/src/traceability/api/p2m.rs:464-476 | a report that could not be delivered keeps both ends of its stream reserved in every later state |
| `Findings.UndeliveredIsReachable` | crates/trace2e_core/src/traceability/api/p2m.rs:464-476 | a concrete run that ends so |
| `Ownership.ShapeIsKept` | crates/trace2e_core/src/traceability/api/p2m.rs:291-492 | every action keeps each request's phase consistent with what it holds, carries and still has to ask |
| `Ownership.LocksAreKept` | crates/trace2e_core/src/traceability/services/sequencer.rs:31-81 | every action keeps claims held, unique and complete, and no reserved destination is also a source |
| `Ownership.ReleaseKeepsLocks` | crates/trace2e_core/src/traceability/api/p2m.rs:481-487 | releasing the own flow takes away exactly the claim of that request on it, and keeps claims held, unique and complete |
| `Ownership.ReleasePeerKeepsLocks` | crates/trace2e_core/src/traceability/api/m2m.rs:161-193 | releasing the peer's end takes away exactly the claim of that request on it, and keeps claims held, unique and complete |
| `Recording.RecordingEffect` | crates/trace2e_core/src/traceability/services/provenance.rs:60-89 | an action that records a flow adds to the destination exactly the references of the source, an action that records none changes no references |
| `Recording.SourceIsStable` | crates/trace2e_core/src/traceability/services/sequencer.rs:36-47 | an action changes the references of no resource that a live request reads, since nobody else may write it |
| `Recording.RunsKeepInv` | crates/trace2e_core/src/traceability/api/p2m.rs:291-492 | ownership, phases and snapshots of references hold along every run with peers on other nodes |
| `Labels.RunsKeepLabelInv` | crates/trace2e_core/src/traceability/api/p2m.rs:347-423 | along every run without relabelling every reference may flow to the resource it is recorded at, and every cleared reference to the target of its request |
| `Labels.RulesCompareExactly` | crates/trace2e_core/src/traceability/services/compliance.rs:396-463 | in any state the references of a node meet the rules if and only if the policy of the target is there and every one of them that is no stream is undeleted, has an undeleted target and may flow to it by its label |
| `Labels.RulesCompare` | crates/trace2e_core/src/traceability/services/compliance.rs:422-463 | so a node whose references meet the rules has compared each of them with the label of the actual target |
| `Deletion.DeletedRefuses` | crates/trace2e_core/src/traceability/services/compliance.rs:422-449 | the node of a deleted reference finds the rules broken, so that no consent matters |
| `Deletion.DeletedIsKept` | crates/trace2e_core/src/traceability/services/compliance.rs:202-278 | no action of the protocol or of an operator changes the policy of a deleted resource |
| `Deletion.DescendantsAreInFlight` | crates/trace2e_core/src/traceability/api/p2m.rs:447-488 | whatever an action makes derived from x is the target of a live request for which the node of x has read its policies |
| `Deletion.InFlightWasInFlight` | crates/trace2e_core/src/traceability/services/compliance.rs:422-450 | after the deletion no request comes past the reading of the policies on the node of x with something derived from it |
| `SameNode.PassesWithoutPeerExactly` | crates/trace2e_core/src/traceability/api/p2m.rs:325-335 | a stream whose peer could not be reserved meets the rules of its node if and only if that peer is on this very node and the three rules hold there |
| `SameNode.SameNodeBreaksStability` | crates/trace2e_core/src/traceability/api/p2m.rs:325-347 | a concrete run with both ends of a stream on one node in which a grant holds nothing at the peer and its report changes references another request has already read |
| `Findings.LeakIsReachable` | crates/trace2e_core/src/traceability/api/p2m.rs:366-387 | a concrete run in which a request to a stream of its own node, with a reference on another node, returns without releasing its own reservation |
| `Findings.LeakedStays` | crates/trace2e_core/src/traceability/api/p2m.rs:366-387 | such a request takes no further step |
| `P2m.DenialRestoresExactly` | crates/trace2e_core/src/traceability/api/p2m.rs:304-446 | for every state of the tables: a request that is not granted leaves them as they were if and only if nothing was reserved, or nothing at the peer and it did not return early |
| `P2m.DenialHoldsPeerExactly` | crates/trace2e_core/src/traceability/api/p2m.rs:304-446 | with the peer on another node: if and only if there was no peer's end to reserve or it was not free |
| `P2m.DeletedTargetIsGrantedExactly` | crates/trace2e_core/src/traceability/api/p2m.rs:304-446 | a request to a deleted target is granted if and only if its source has no references, and the peer's end of a stream to another node could be reserved |
| `Findings.DeletedTargetIsGrantedAlone` | crates/trace2e_core/src/traceability/services/compliance.rs:406-449 | the same in every reachable state, where references are never streams |
| `Findings.DeletedTargetIsReachable` | crates/trace2e_core/src/traceability/services/compliance.rs:406-449 | a concrete run in which a deleted process is granted to read a stream |
| `Sequencer.ReserveRefinesLocks` | crates/trace2e_core/src/traceability/services/sequencer.rs:31-56 | a reservation is possible exactly if a read lock on the source and a write lock on the destination are, and takes those two and no other |
| `Sequencer.ReleaseRefinesLocks` | crates/trace2e_core/src/traceability/services/sequencer.rs:57-81 | a release frees the destination, takes one reader off the source, touches no other lock, and reports the source if its last reader left and no source otherwise |
| `Sequencer.ReserveKeepsBipartiteExactly` | crates/trace2e_core/src/traceability/services/sequencer.rs:36-47 | no resource is both written and read after a reservation if and only if source and destination differ |
| `Sequencer.ReleasedMeansFree` | crates/trace2e_core/src/traceability/services/sequencer.rs:57-81 | over any sequence of requests without self-flows every resource a release reports is completely free |
| `Sequencer.ReplayOneMore` | crates/trace2e_core/src/traceability/services/sequencer.rs:93-107 | requests take effect one after the other, from an empty table |
| `Sequencer.SequencerService.MakeFlow` | crates/trace2e_core/src/traceability/services/sequencer.rs:31-56 | adds that entry exactly if both ends are available; otherwise nothing changes and the error names exactly the ends that are not |
| `Sequencer.SequencerService.DropFlow` | crates/trace2e_core/src/traceability/services/sequencer.rs:57-81 | removes exactly that entry; reports the destination if there was one, and its source exactly if no other destination has it |
| `WaitingQueue.WaitingQueueService.Call` | crates/trace2e_core/src/traceability/services/sequencer.rs:169-220 | max_retries + 1 attempts before it gives up, none for u32::MAX; all but the last are refused and followed by a wait that ends with every ticket drawn at that attempt woken; a reservation adds that entry; a release is made at once, removes that entry, and wakes exactly the longest-waiting ticket of each resource it reports |
| `WaitingQueue.WaitingQueueService.TryReserve` | crates/trace2e_core/src/traceability/services/sequencer.rs:174-212 | one attempt: a success adds that entry and nothing else, a refusal leaves the table and joins the queues; the tickets given back are exactly those drawn |
| `WaitingQueue.RefusalJoinsWhatIsLacked` | crates/trace2e_core/src/traceability/services/sequencer.rs:192-213 | a refused attempt joins exactly the queues of the resources it lacked, as often as it lacked them |
| `WaitingQueue.WaitingQueueService.JoinLacked` | crates/trace2e_core/src/traceability/services/sequencer.rs:192-213 | each error joins exactly the queues of the resources it names |
| `WaitingQueue.ReleaseWakesHeads` | crates/trace2e_core/src/traceability/services/sequencer.rs:180-184 | each mention of a resource in a release wakes the longest-waiting ticket left in its queue, nobody who waits for another resource is woken |
| `WaitingQueue.WaitingQueueService.NotifyReleased` | crates/trace2e_core/src/traceability/services/sequencer.rs:180-190 | the same of the service: each mention of a resource in a release wakes the longest-waiting ticket left in its queue, and no other is woken |
| `WaitingQueue.WaitingQueueService.NotifyWaitingQueue` | crates/trace2e_core/src/traceability/services/sequencer.rs:142-149 | wakes the head of one queue; the queues stay sound and the history only grows |
| `WaitingQueue.WaitingQueueService.JoinWaitingQueue` | crates/trace2e_core/src/traceability/services/sequencer.rs:130-141 | appends a ticket that is in no queue and never was |
| `WaitingQueue.RunsKeepHistory` | crates/trace2e_core/src/traceability/services/sequencer.rs:130-149 | conservation and order over any run of any number of tasks: who ever joined a queue is who was woken followed by who waits, every ticket once, and what has happened stays in the history |
| `WaitingQueue.NotifyIsSound` | crates/trace2e_core/src/traceability/services/sequencer.rs:142-149 | moving a head from waiting to woken keeps the whole history of joins |
| `WaitingQueue.EnqueueIsSound` | crates/trace2e_core/src/traceability/services/sequencer.rs:130-141 | joining keeps order, history and the uniqueness of tickets |
| `WaitingQueue.RefusalIsRun` | crates/trace2e_core/src/traceability/services/sequencer.rs:192-213 | what a refused attempt does is the run of events in which the caller joins what it lacked, the source first |
| `WaitingQueue.ReleaseIsRun` | crates/trace2e_core/src/traceability/services/sequencer.rs:176-190 | what a release does is the run of events that moves the table and then wakes for the source and the destination it reports |
| `Provenance.AccumulatedIsAncestry` | crates/trace2e_core/src/traceability/services/provenance.rs:60-89 | adding the source's references flow by flow yields exactly the non-stream ancestors along chains of increasing time |
| `Provenance.UpdateIsUnion` | crates/trace2e_core/src/traceability/services/provenance.rs:69-89 | in spite of the subset short-cut an update is the union at the destination and nothing elsewhere |
| `Provenance.ProvenanceService.Update` | crates/trace2e_core/src/traceability/services/provenance.rs:60-68 | adds the references of the source to those of the destination, and says whether they grew |
| `Provenance.ProvenanceService.UpdateProvenanceRaw` | crates/trace2e_core/src/traceability/services/provenance.rs:69-89 | adds given references to the destination, and says exactly whether they grew |
| `Provenance.ProvenanceService.GetReferences` | crates/trace2e_core/src/traceability/services/provenance.rs:36-57 | stored references, or the resource itself on this node, or nothing for a stream |
| `Compliance.ComplianceService.EvalCompliance` | crates/trace2e_core/src/traceability/services/compliance.rs:388-481 | grants exactly if the policy of the destination is there and every non-stream source is undeleted, has an undeleted destination of no more integrity that is secret if it is, and an owner who consents where that is enforced; for every order of sources and of consents; changes no later lookup |
| `Compliance.GrantsAreGenerated` | crates/trace2e_core/src/traceability/services/compliance.rs:372-387 | data may stay at its level, and a grant is that together with more integrity or less secrecy at the source and the opposite at the destination, nothing else |
| `Compliance.RulesAreMonotone` | crates/trace2e_core/src/traceability/services/compliance.rs:372-387 | more integrity or less secrecy at the source, or the opposite at the destination, never turns a grant into a refusal |
| `Compliance.SameLevelPasses` | crates/trace2e_core/src/traceability/services/compliance.rs:372-387 | between undeleted resources of one level everything may flow, secret data included |
| `Compliance.DocumentedScenarios` | crates/trace2e_core/src/traceability/services/compliance.rs:376-387 | the permitted and the blocked flows listed there come out as listed |
| `Compliance.GrantsSpelledOut` | crates/trace2e_core/src/traceability/services/compliance.rs:388-481 | the evaluation, policy by policy and consent by consent |
| `Compliance.ComplianceService.CheckRules` | crates/trace2e_core/src/traceability/services/compliance.rs:409-463 | the loop over the sources: its verdict is the conjunction of the comparisons, written out, and it asks consent of exactly the sources that enforce it |
| `Compliance.ComplianceService.AwaitConsents` | crates/trace2e_core/src/traceability/services/compliance.rs:466-480 | all consents that were asked for must be there and positive; which kind of error says why |
| `Compliance.ComplianceService.GetPolicies` | crates/trace2e_core/src/traceability/services/compliance.rs:512-521 | the policies of the non-stream resources, storing defaults without changing any lookup |
| `Compliance.ComplianceService.GetPolicy` | crates/trace2e_core/src/traceability/services/compliance.rs:499-501 | the stored policy, or public, integrity 0, undeleted and without consent, which is then stored |
| `Compliance.ComplianceService.Set` | crates/trace2e_core/src/traceability/services/compliance.rs:558-665 | for each of the five updates the value it puts in its field of the looked-up policy and the three it keeps, exactly unless the resource is deleted; every other resource looks up as before |
| `Compliance.UpdateTakesEffect` | crates/trace2e_core/src/traceability/services/compliance.rs:202-262 | the same of the updates by which operators act on the protocol |
| `Compliance.EvalIsRulesThenConsents` | crates/trace2e_core/src/traceability/services/compliance.rs:388-481 | an evaluation grants if and only if the rules hold when the policies are read and all owners asked then consent |
| `Compliance.EvalDistributes` | crates/trace2e_core/src/traceability/services/compliance.rs:388-481 | evaluating the union of two sets of sources grants if and only if both evaluations do |
| `Compliance.EvalIsRulesAndConsents` | crates/trace2e_core/src/traceability/services/compliance.rs:409-480 | the loop verdict together with the consents is the rule applied source by source |
| `Compliance.VerdictNeedsLookupsOnly` | crates/trace2e_core/src/traceability/services/compliance.rs:499-501 | stored defaults change no verdict |
| `Compliance.DeletionFreezes` | crates/trace2e_core/src/traceability/services/compliance.rs:202-278 | after any sequence of updates a deleted or pending policy is what it was |
| `Compliance.ApplyInTurn` | crates/trace2e_core/src/traceability/services/compliance.rs:558-665 | updates take effect one after the other |
| `Compliance.UpdatesAreIndependent` | crates/trace2e_core/src/traceability/services/compliance.rs:558-665 | what a policy becomes depends only on the updates of its own resource, in their order |
| `Compliance.DeletedDestinationIsRefusedExactly` | crates/trace2e_core/src/traceability/services/compliance.rs:406-449 | a deleted destination is refused if and only if some source is not a stream |
| `Compliance.DeletedDestinationIsGranted` | crates/trace2e_core/src/traceability/services/compliance.rs:406-449 | a concrete evaluation without sources, as for a process that reads a fresh stream, that grants a deleted destination |
| `Consent.MostSpecificWins` | crates/trace2e_core/src/traceability/services/consent.rs:190-199 | for any depth of nesting a decision is the answer if and only if it stands in the hierarchy with none more specific |
| `Consent.HierarchyClimbs` | crates/trace2e_core/src/traceability/services/consent.rs:152-158 | the hierarchy starts at the destination and climbs parent by parent to one that has none |
| `Consent.ResourceBeforeNode` | crates/trace2e_core/src/traceability/services/consent.rs:75-87 | the question of an evaluation is looked up for the resource on its node first and for the whole node next |
| `Consent.DecisionChangesWhatItGoverns` | crates/trace2e_core/src/traceability/services/consent.rs:301-311 | a decision, the first or a later one, changes the answers of exactly those questions whose hierarchy contains its key with nothing more specific decided |
| `Consent.LastDecisionCounts` | crates/trace2e_core/src/traceability/services/consent.rs:301-311 | a decision can be revoked: the last one for a key is its answer |
| `Consent.NoDecisionIsLost` | crates/trace2e_core/src/traceability/services/consent.rs:224-311 | over any run a requester that still waits has missed no decision on its destination or its parent, and with at most two levels none at all |
| `Consent.WakingDecisionIsTheAnswer` | crates/trace2e_core/src/traceability/services/consent.rs:252-311 | the decision that first wakes a requester is the answer it would now look up |
| `Consent.AnsweredAtOnceExactly` | crates/trace2e_core/src/traceability/services/consent.rs:224-262 | a request is answered without waiting if and only if it is decided or the source has no owner, with the decision or a no; otherwise it waits, or fails if the owner no longer listens |
| `Consent.AskingSubscribes` | crates/trace2e_core/src/traceability/services/consent.rs:205-259 | a request that is not answered subscribes to the channels of its destination and of the next broader one, and touches no other |
| `Consent.EvaluationNeedsDecisions` | crates/trace2e_core/src/traceability/services/compliance.rs:409-480 | with these answers an evaluation grants exactly if every source meets the rules and, where consent is enforced, the most specific decision for the destination on its node is a yes |
| `Consent.BroadDecisionIsMissed` | crates/trace2e_core/src/traceability/services/consent.rs:232-262 | a concrete run with three levels in which the question has an answer and the requester still waits |
| `Consent.HandleInTurn` | crates/trace2e_core/src/traceability/services/consent.rs:335-360 | events take effect one after the other |
| `Consent.RunsAreConsistent` | crates/trace2e_core/src/traceability/services/consent.rs:205-311 | decided keys have no channel and every waiting requester is subscribed to its two keys, over any run |
| `Consent.ConsentService.GetConsent` | crates/trace2e_core/src/traceability/services/consent.rs:224-262 | which of the four answers is given, the channels and requesters afterwards, key by key, and that the owner is notified exactly if the request waits |
| `Consent.ConsentService.SetConsent` | crates/trace2e_core/src/traceability/services/consent.rs:301-311 | the decision replaces an earlier one and is the answer from now on; the channel of its key closes and exactly its subscribers receive it |
| `Consent.ConsentService.GetOrCreateDecisionChannel` | crates/trace2e_core/src/traceability/services/consent.rs:205-216 | adds subscribers to one channel, which it creates if needed |
| `Consent.ConsentService.TakeResourceOwnership` | crates/trace2e_core/src/traceability/services/consent.rs:314-323 | from then on the resource has an owner to notify; earlier notifications stay |
| `M2m.M2mApiService.GetDestinationPolicy` | crates/trace2e_core/src/traceability/api/m2m.rs:104-134 | reserves the local destination with the source Null exactly if it can and then answers with its policy; refuses a destination of another node |
| `M2m.M2mApiService.CheckSourceCompliance` | crates/trace2e_core/src/traceability/api/m2m.rs:135-160 | the evaluation of exactly the references of this node |
| `M2m.M2mApiService.UpdateProvenance` | crates/trace2e_core/src/traceability/api/m2m.rs:161-193 | records the references at the destination and releases it, and nothing else |
| `M2m.M2mApiService.BroadcastDeletion` | crates/trace2e_core/src/traceability/api/m2m.rs:194-212 | deletes on the owner's node only, and reports an error exactly on repetition |
| `M2m.M2mLoopback.CheckSourceCompliance` | crates/trace2e_core/src/transport/loopback.rs:280-312 | grants if and only if every node that owns some of the references is registered and lets its own references pass |
| `M2m.M2mLoopback.Partition` | crates/trace2e_core/src/transport/loopback.rs:281-290 | one group a node that owns references, holding exactly its references |
| `M2m.M2mLoopback.AskNode` | crates/trace2e_core/src/transport/loopback.rs:292-304 | one node's answer depends on its own references only; an unregistered node cannot be contacted |
| `M2m.M2mLoopback.BroadcastDeletion` | crates/trace2e_core/src/transport/loopback.rs:251-279 | told to every node, acted on by the owner only, all other policies unchanged; an error exactly on repetition |
| `M2m.M2mLoopback.GetDestinationPolicy` | crates/trace2e_core/src/transport/loopback.rs:313-315 | routed to the owner: the tables of all nodes change by that one reservation, and it succeeds exactly if that node is there and free to reserve |
| `M2m.M2mLoopback.UpdateProvenance` | crates/trace2e_core/src/transport/loopback.rs:313-315 | routed to the owner: recorded and released there and nowhere else, or an error and nothing changed |
| `M2m.NodeAnswersForItself` | crates/trace2e_core/src/transport/loopback.rs:280-312 | splitting the references by node changes no node's answer |
| `P2m.P2mApiService.IoRequest` | crates/trace2e_core/src/traceability/api/p2m.rs:291-446 | for every state of all tables: when it is granted, what is reserved on which node afterwards, and which grant is stored |
| `P2m.P2mApiService.IoReport` | crates/trace2e_core/src/traceability/api/p2m.rs:447-490 | records the references of the source where the destination is, releases both ends and removes the grant; an unreachable peer leaves all reservations although the grant is gone |
| `P2m.P2mApiService.Request` | crates/trace2e_core/src/traceability/api/p2m.rs:304-446 | the request from its own reservation on, with the tables of all nodes |
| `P2m.P2mApiService.Conclude` | crates/trace2e_core/src/traceability/api/p2m.rs:347-438 | the verdict, and that exactly a denial that reached its end releases the own reservation |
| `P2m.P2mApiService.Authorise` | crates/trace2e_core/src/traceability/api/p2m.rs:347-423 | the verdict is that of all nodes that own references, and the one early return is characterised |
| `P2m.P2mApiService.FetchPolicy` | crates/trace2e_core/src/traceability/api/p2m.rs:317-336 | the peer's policy is there exactly if its end was reserved; any error counts as no policy |
| `P2m.P2mApiService.LocalEnroll` | crates/trace2e_core/src/traceability/api/p2m.rs:261-272 | binds a descriptor of a process to a file and no other descriptor |
| `P2m.P2mApiService.RemoteEnroll` | crates/trace2e_core/src/traceability/api/p2m.rs:273-290 | binds a descriptor of a process to a stream and no other descriptor |
| `P2m.NodesPassIffAllPass` | crates/trace2e_core/src/traceability/api/p2m.rs:347-423 | own references first and then node by node is the conjunction over all references, except that without the policy of a stream only own references may pass, and only with a peer on the own node |
| `P2m.ReservationsAreApart` | crates/trace2e_core/src/traceability/api/p2m.rs:304-347 | with the peer on another node the own reservation and the peer's do not influence each other, and dropping the own one restores the tables but for the peer's |
| `P2m.PeerElsewhereIsAnswered` | crates/trace2e_core/src/traceability/api/p2m.rs:304-446 | with the peer on another node: granted if and only if both ends are free and all references pass; a denial leaves every table as it was but for the peer's end |
| `P2m.AnswerIsReached` | crates/trace2e_core/src/traceability/api/p2m.rs:304-446 | the sequence reserve, fetch, evaluate, release comes to the stated outcome whether the peer is near or far |
| `Wire.Group` | crates/trace2e_core/src/transport/grpc.rs:304-318 | grouping references by node loses and invents none, and no node occurs twice |
| `Wire.EncodeResource` | crates/trace2e_core/src/transport/grpc.rs:791-888 | a resource decodes to what was encoded |
| `Wire.ResourceDecodesExactly` | crates/trace2e_core/src/transport/grpc.rs:791-888 | a message decodes to a resource if and only if it is its encoding, or holds an empty descriptor, which counts as a file without a path |
| `Wire.LocalizedDecodesExactly` | crates/trace2e_core/src/transport/grpc.rs:891-898 | with the node as sent, and no resource counting as none |
| `Wire.EncodeLocalized` | crates/trace2e_core/src/transport/grpc.rs:891-908 | a localized resource decodes to what was encoded |
| `Wire.EncodeDestination` | crates/trace2e_core/src/transport/grpc.rs:911-983 | a destination of any depth decodes to what was encoded, and carries the node of its parent with the resource |
| `Wire.IncompleteDestinations` | crates/trace2e_core/src/transport/grpc.rs:912-933 | what destinations with missing content decode to |
| `Wire.PendingCollapses` | crates/trace2e_core/src/transport/grpc.rs:986-1014 | a policy survives the wire if and only if it is not pending deletion, in which case it arrives as deleted with all else unchanged; a second trip changes nothing; public is 0 and secret is 1 |
| `Wire.VerdictSurvivesWire` | crates/trace2e_core/src/transport/grpc.rs:986-1014 | the verdict with the policy that was sent is the verdict with the original |
| `ResourceText.ParsesExactly` | crates/trace2e_core/src/traceability/infrastructure/naming.rs:270-295 | a text is read as a resource if and only if it is its printed form and that is readable; everything else is an error |
| `ResourceText.LocalizedParsesExactly` | crates/trace2e_core/src/traceability/infrastructure/naming.rs:305-328 | a text is read as a localized resource if and only if it is its printed form, its resource is readable and its node has no "@" |
| `ResourceText.StreamsReadBackExactly` | crates/trace2e_core/src/traceability/infrastructure/naming.rs:281-290 | a stream comes back if and only if its sockets contain no "::::" and the local one does not end in a colon |
| `ResourceText.PrintedForms` | crates/trace2e_core/src/traceability/infrastructure/naming.rs:225-238 | how each kind of resource is printed |
| `ResourceText.DigitsAreDecimal` | crates/trace2e_core/src/traceability/infrastructure/naming.rs:231-233 | numbers are printed in decimal |
| `ResourceText.ParsesBackExactly` | crates/trace2e_core/src/traceability/infrastructure/naming.rs:225-295 | printing and parsing gives the resource back if and only if it is a file, or a stream whose sockets contain no "::::" and whose local socket does not end in a colon |
| `ResourceText.LocalizedParsesBackExactly` | crates/trace2e_core/src/traceability/infrastructure/naming.rs:305-342 | a localized resource comes back if and only if its resource does and its node has no "@", even if its path has some |
| `ResourceText.StreamRoundTrip` | crates/trace2e_core/src/traceability/infrastructure/naming.rs:281-290 | splitting a printed stream yields its two sockets if and only if the printed separator is the first and the only one |

## Left out

- Theorems.NoChainWritesDown: relabelling between evaluation and report is excluded, because the source does not evaluate again; Mediation.EveryReferenceWasJudged says what holds with it.
- Settled.GrantedExactlyIfAllPass: once the request has started, updates of its target and of the references it has read are excluded, because nodes then judge by different policies at different times; and calls of this request that fail are excluded.
- WaitingQueue.WaitingQueueService.Call: the state found after each wait is a parameter: the queues are sound, it extends the history, and the tickets of the call are woken, which is what the methods themselves guarantee; that a wait ends is not stated.
- Nodes neither join nor leave during a run of the protocol; a node that cannot be reached is a failing call.
- P2m.P2mApiService.IoRequest: one call without interleaving; which of several errors a denial carries is not stated.
- M2m.M2mLoopback.CheckSourceCompliance: nodes are asked in turn rather than concurrently, and which of several errors is returned is not stated.
- Liveness: two requests writing to both ends of one stream may wait for each other, and a woken waiter without attempts left consumes its wake-up.
- Wall-clock timeouts, cancelled calls, and the panic when a waiter is gone.
- Client libraries, operator programs, benchmarks and demonstrations: input and output only.
- Connection caching, reflection, delays and logging of the transports: no state that matters here.
- Deletion broadcast over gRPC: it is addressed to "*"; only the loopback transport is modelled.
- The gRPC partition of sources: the same loop as in the loopback transport.
- Process queries of the operating system, and the optional validation of requests with them.
- `set_references`, `deletion_enforced` and the removal of deleted files: used by benchmarks and an optional feature only.
- The operator interface as a service: its updates are actions of `Protocol` and methods of `Compliance` and `Consent`.
- Parsing a destination from text: the same parser as for resources.

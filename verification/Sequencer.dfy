/**
 The reservation table `destination -> source` and the waiting queue above it.

 `Flows` is read as a table of reader/writer locks: a key is held by its one
 writer, a value by as many readers as it has entries.
 */
module Sequencer {
  import opened Wrappers
  import opened Naming

  type Flows = map<Resource, Resource>

  datatype Response =
    | FlowReserved
    | FlowReleased(source: Option<Resource>, destination: Option<Resource>)

  datatype Error =
    | UnavailableSource(source: Resource)
    | UnavailableDestination(destination: Resource)
    | UnavailableSourceAndDestination(source: Resource, destination: Resource)
    | ReachedMaxRetriesWaitingQueue

  datatype Request =
    | ReserveFlow(source: Resource, destination: Resource)
    | ReleaseFlow(destination: Resource)

  predicate HasReader(flows: Flows, r: Resource) {
    exists d :: d in flows && flows[d] == r
  }

  predicate MayReserve(flows: Flows, source: Resource, destination: Resource) {
    source !in flows && destination !in flows && !HasReader(flows, destination)
  }

  /** No resource is written and read at the same time. */
  ghost predicate Bipartite(flows: Flows) {
    forall d :: d in flows ==> flows[d] !in flows
  }

  // ---------------------------------------------------------------- lock view

  datatype Lock = Free | Writing | Reading(readers: nat)

  function Readers(flows: Flows, r: Resource): set<Resource> {
    set d | d in flows && flows[d] == r
  }

  function LockOf(flows: Flows, r: Resource): Lock {
    if r in flows then Writing
    else if |Readers(flows, r)| == 0 then Free
    else Reading(|Readers(flows, r)|)
  }

  function AddReader(lock: Lock): Option<Lock> {
    match lock
    case Free => Some(Reading(1))
    case Reading(n) => Some(Reading(n + 1))
    case Writing => None
  }

  function AddWriter(lock: Lock): Option<Lock> {
    if lock.Free? then Some(Writing) else None
  }

  function DropReader(lock: Lock): Lock {
    if lock.Reading? && lock.readers > 1 then Reading(lock.readers - 1) else Free
  }

  lemma ReadersEmpty(flows: Flows, r: Resource)
    ensures |Readers(flows, r)| == 0 <==> !HasReader(flows, r)
  {
    if HasReader(flows, r) {
      var d :| d in flows && flows[d] == r;
      assert d in Readers(flows, r);
    } else {
      assert Readers(flows, r) == {};
    }
  }

  /** A reservation is possible exactly when both locks are, and takes exactly those two locks. */
  lemma ReserveRefinesLocks(flows: Flows, s: Resource, d: Resource)
    requires Bipartite(flows)
    ensures MayReserve(flows, s, d)
       <==> AddReader(LockOf(flows, s)).Some? && AddWriter(LockOf(flows, d)).Some?
    ensures MayReserve(flows, s, d) && s != d ==>
              && Bipartite(flows[d := s])
              && Some(LockOf(flows[d := s], s)) == AddReader(LockOf(flows, s))
              && Some(LockOf(flows[d := s], d)) == AddWriter(LockOf(flows, d))
              && forall r :: r != s && r != d ==> LockOf(flows[d := s], r) == LockOf(flows, r)
  {
    ReadersEmpty(flows, s);
    ReadersEmpty(flows, d);
    var after := flows[d := s];
    if MayReserve(flows, s, d) && s != d {
      assert Readers(after, s) == Readers(flows, s) + {d};
      forall r | r != s && r != d
        ensures LockOf(after, r) == LockOf(flows, r)
      {
        assert Readers(after, r) == Readers(flows, r);
      }
    }
  }

  /** Only a flow from a resource to itself would make it written and read at once. */
  lemma ReserveKeepsBipartiteExactly(flows: Flows, s: Resource, d: Resource)
    requires Bipartite(flows) && MayReserve(flows, s, d)
    ensures Bipartite(flows[d := s]) <==> s != d
  {
    var after := flows[d := s];
    assert d in after && after[d] == s;
  }

  function ReleaseResponse(flows: Flows, d: Resource): Response {
    if d !in flows then FlowReleased(None, None)
    else if HasReader(flows - {d}, flows[d]) then FlowReleased(None, Some(d))
    else FlowReleased(Some(flows[d]), Some(d))
  }

  /** A release frees the destination, takes one reader off the source and nothing else;
      it reports the source exactly when its last reader left. */
  lemma ReleaseRefinesLocks(flows: Flows, d: Resource)
    requires Bipartite(flows)
    ensures Bipartite(flows - {d})
    ensures d in flows ==>
              var after := flows - {d};
              var s := flows[d];
              && LockOf(after, d) == Free
              && LockOf(after, s) == DropReader(LockOf(flows, s))
              && (forall r :: r != s && r != d ==> LockOf(after, r) == LockOf(flows, r))
              && ReleaseResponse(flows, d).destination == Some(d)
              && ReleaseResponse(flows, d).source == (if LockOf(flows, s) == Reading(1) then Some(s) else None)
    ensures d !in flows ==> flows - {d} == flows && ReleaseResponse(flows, d) == FlowReleased(None, None)
  {
    var after := flows - {d};
    if d in flows {
      var s := flows[d];
      ReadersEmpty(flows, d);
      ReadersEmpty(after, d);
      ReadersEmpty(after, s);
      assert Readers(after, s) == Readers(flows, s) - {d};
      forall r | r != s && r != d
        ensures LockOf(after, r) == LockOf(flows, r)
      {
        assert Readers(after, r) == Readers(flows, r);
      }
    } else {
      assert after == flows;
    }
  }

  // ---------------------------------------------------------------- whole runs

  function Attempt(flows: Flows, request: Request): Flows {
    match request
    case ReserveFlow(s, d) => if MayReserve(flows, s, d) then flows[d := s] else flows
    case ReleaseFlow(d) => flows - {d}
  }

  function Replay(requests: seq<Request>): Flows {
    if requests == [] then map[]
    else Attempt(Replay(requests[..|requests| - 1]), requests[|requests| - 1])
  }

  /** A run goes on where it was. */
  lemma ReplayOneMore(requests: seq<Request>, request: Request)
    ensures Replay([]) == map[] && Replay(requests + [request]) == Attempt(Replay(requests), request)
  {
    assert (requests + [request])[..|requests|] == requests;
  }

  ghost predicate NoSelfFlow(requests: seq<Request>) {
    forall i :: 0 <= i < |requests| && requests[i].ReserveFlow? ==> requests[i].source != requests[i].destination
  }

  /** Over any run, active flows never form a chain, so whatever a release reports is entirely free. */
  lemma {:induction false} ReleasedMeansFree(requests: seq<Request>, d: Resource)
    requires NoSelfFlow(requests)
    ensures Bipartite(Replay(requests))
    ensures var before := Replay(requests);
            var response := ReleaseResponse(before, d);
            && (response.source.Some? ==> LockOf(before - {d}, response.source.value) == Free)
            && (response.destination.Some? ==> LockOf(before - {d}, response.destination.value) == Free)
  {
    if requests != [] {
      var last := requests[|requests| - 1];
      ReleasedMeansFree(requests[..|requests| - 1], d);
      match last
      case ReserveFlow(s, e) => ReserveRefinesLocks(Replay(requests[..|requests| - 1]), s, e);
      case ReleaseFlow(e) => ReleaseRefinesLocks(Replay(requests[..|requests| - 1]), e);
    }
    ReleaseRefinesLocks(Replay(requests), d);
  }

  // ---------------------------------------------------------------- services

  class SequencerService {
    var flows: Flows

    constructor ()
      ensures flows == map[]
    {
      flows := map[];
    }

    method MakeFlow(source: Resource, destination: Resource) returns (r: Result<Response, Error>)
      modifies this
      ensures flows == Attempt(old(flows), ReserveFlow(source, destination))
      ensures flows == if r.Ok? then old(flows)[destination := source] else old(flows)
      ensures r.Ok? <==> MayReserve(old(flows), source, destination)
      ensures r.Ok? ==> r.value == FlowReserved
      ensures r.Err? ==> flows == old(flows)
      ensures r.Err? ==> !r.error.ReachedMaxRetriesWaitingQueue?
      ensures r == Err(UnavailableSource(source))
         ==> source in flows && destination !in flows && !HasReader(flows, destination)
      ensures r == Err(UnavailableDestination(destination))
         ==> source !in flows && (destination in flows || HasReader(flows, destination))
      ensures r == Err(UnavailableSourceAndDestination(source, destination))
         ==> source in flows && (destination in flows || HasReader(flows, destination))
      ensures r.Err? ==> r.error in {UnavailableSource(source), UnavailableDestination(destination),
                                     UnavailableSourceAndDestination(source, destination)}
    {
      var sourceAvailable := source !in flows;
      var destinationAvailable := destination !in flows && !HasReader(flows, destination);
      if sourceAvailable && destinationAvailable {
        flows := flows[destination := source];
        return Ok(FlowReserved);
      } else if sourceAvailable {
        return Err(UnavailableDestination(destination));
      } else if destinationAvailable {
        return Err(UnavailableSource(source));
      } else {
        return Err(UnavailableSourceAndDestination(source, destination));
      }
    }

    method DropFlow(destination: Resource) returns (r: Response)
      modifies this
      ensures flows == old(flows) - {destination}
      ensures flows == Attempt(old(flows), ReleaseFlow(destination))
      ensures r == ReleaseResponse(old(flows), destination)
      ensures destination !in old(flows) ==> r == FlowReleased(None, None)
      ensures destination in old(flows) ==>
                var source := old(flows)[destination];
                r == if exists d :: d in old(flows) && d != destination && old(flows)[d] == source
                     then FlowReleased(None, Some(destination))
                     else FlowReleased(Some(source), Some(destination))
    {
      if destination in flows {
        var source := flows[destination];
        flows := flows - {destination};
        assert forall d :: d in old(flows) && d != destination ==> d in flows && flows[d] == old(flows)[d];
        if HasReader(flows, source) {
          return FlowReleased(None, Some(destination));
        } else {
          return FlowReleased(Some(source), Some(destination));
        }
      } else {
        assert flows - {destination} == flows;
        return FlowReleased(None, None);
      }
    }
  }
}

/**
 The provenance store of one node, and what it means for the stores of all nodes
 together: ancestry along flows in the order in which they were recorded.
 */
module Provenance {
  import opened Naming

  type References = set<LocalizedResource>
  type Store = map<Resource, References>

  datatype Response = ProvenanceUpdated | ProvenanceNotUpdated

  function InitProvenance(node: NodeId, r: Resource): References {
    if r.IsStream() then {} else {LocalizedResource(node, r)}
  }

  function RefsAt(refs: References, node: NodeId): set<Resource> {
    set x | x in refs && x.nodeId == node :: x.resource
  }

  function GetProv(node: NodeId, store: Store, r: Resource): References {
    if r in store then store[r] else InitProvenance(node, r)
  }

  function UpdateRaw(node: NodeId, store: Store, sourceProv: References, d: Resource): Store {
    if sourceProv <= GetProv(node, store, d) then store
    else store[d := GetProv(node, store, d) + sourceProv]
  }

  /** With or without the short-cut, the references of `d` grow by those of the source and no others change. */
  lemma UpdateIsUnion(node: NodeId, store: Store, sourceProv: References, d: Resource, r: Resource)
    ensures GetProv(node, UpdateRaw(node, store, sourceProv, d), r)
         == GetProv(node, store, r) + (if r == d then sourceProv else {})
  {
  }

  class ProvenanceService {
    const nodeId: NodeId
    var provenance: Store

    constructor (nodeId: NodeId)
      ensures this.nodeId == nodeId && provenance == map[]
    {
      this.nodeId := nodeId;
      provenance := map[];
    }

    method GetReferences(r: Resource) returns (references: References)
      ensures references == GetProv(nodeId, provenance, r)
    {
      if r in provenance {
        return provenance[r];
      } else {
        return InitProvenance(nodeId, r);
      }
    }

    method Update(source: Resource, destination: Resource) returns (response: Response)
      modifies this
      ensures provenance
           == UpdateRaw(nodeId, old(provenance), GetProv(nodeId, old(provenance), source), destination)
      ensures response.ProvenanceUpdated?
         <==> GetProv(nodeId, provenance, destination) != GetProv(nodeId, old(provenance), destination)
    {
      var sourceProv := GetReferences(source);
      response := UpdateProvenanceRaw(sourceProv, destination);
    }

    method UpdateProvenanceRaw(sourceProv: References, destination: Resource) returns (response: Response)
      modifies this
      ensures provenance == UpdateRaw(nodeId, old(provenance), sourceProv, destination)
      ensures response.ProvenanceUpdated?
         <==> GetProv(nodeId, provenance, destination) != GetProv(nodeId, old(provenance), destination)
    {
      var destinationProv := GetReferences(destination);
      if sourceProv <= destinationProv {
        return ProvenanceNotUpdated;
      } else {
        provenance := provenance[destination := destinationProv + sourceProv];
        return ProvenanceUpdated;
      }
    }
  }

  // ---------------------------------------------------------------- ancestry

  /** One recorded flow, from a resource on one node to a resource on the same or another. */
  datatype Flow = Flow(source: LocalizedResource, destination: LocalizedResource)

  /** `path` picks flows of the history in recording order that lead from `x` to `y`. */
  ghost predicate Chain(history: seq<Flow>, path: seq<nat>, x: LocalizedResource, y: LocalizedResource) {
    if path == [] then x == y
    else
      var last := path[|path| - 1];
      && last < |history|
      && history[last].destination == y
      && Chain(history[..last], path[..|path| - 1], x, history[last].source)
  }

  ghost predicate Ancestor(history: seq<Flow>, x: LocalizedResource, y: LocalizedResource) {
    && !x.resource.IsStream()
    && exists path :: Chain(history, path, x, y)
  }

  /** What the stores hold when every flow of the history adds the references of its source to its destination. */
  ghost function Accumulated(history: seq<Flow>, y: LocalizedResource): References {
    if history == [] then InitProvenance(y.nodeId, y.resource)
    else
      var before, last := history[..|history| - 1], history[|history| - 1];
      Accumulated(before, y) + (if last.destination == y then Accumulated(before, last.source) else {})
  }

  lemma AccumulatedOneMore(history: seq<Flow>, flow: Flow, y: LocalizedResource)
    ensures Accumulated(history + [flow], y)
         == Accumulated(history, y) + (if flow.destination == y then Accumulated(history, flow.source) else {})
  {
    var longer := history + [flow];
    assert longer[..|longer| - 1] == history;
  }

  lemma {:induction false} ChainInLonger(history: seq<Flow>, n: nat, path: seq<nat>,
                                         x: LocalizedResource, y: LocalizedResource)
    requires n <= |history| && Chain(history[..n], path, x, y)
    ensures Chain(history, path, x, y)
  {
    if path != [] {
      var last := path[|path| - 1];
      assert history[..n][..last] == history[..last];
    }
  }

  lemma {:induction false} AccumulatedHasChain(history: seq<Flow>, x: LocalizedResource, y: LocalizedResource)
    returns (path: seq<nat>)
    requires x in Accumulated(history, y)
    ensures !x.resource.IsStream() && Chain(history, path, x, y)
    decreases |history|
  {
    if history == [] {
      path := [];
    } else {
      var n := |history| - 1;
      if x in Accumulated(history[..n], y) {
        path := AccumulatedHasChain(history[..n], x, y);
        ChainInLonger(history, n, path, x, y);
      } else {
        var front := AccumulatedHasChain(history[..n], x, history[n].source);
        path := front + [n];
        assert path[..|path| - 1] == front;
      }
    }
  }

  lemma {:induction false} AccumulatedMonotone(history: seq<Flow>, n: nat, y: LocalizedResource)
    requires n <= |history|
    ensures Accumulated(history[..n], y) <= Accumulated(history, y)
    decreases |history|
  {
    if n == |history| {
      assert history[..n] == history;
    } else {
      AccumulatedMonotone(history[..|history| - 1], n, y);
      assert history[..|history| - 1][..n] == history[..n];
    }
  }

  lemma {:induction false} ChainIsAccumulated(history: seq<Flow>, path: seq<nat>,
                                              x: LocalizedResource, y: LocalizedResource)
    requires !x.resource.IsStream() && Chain(history, path, x, y)
    ensures x in Accumulated(history, y)
    decreases |path|
  {
    if path == [] {
      AccumulatedMonotone(history, 0, y);
    } else {
      var last := path[|path| - 1];
      ChainIsAccumulated(history[..last], path[..|path| - 1], x, history[last].source);
      var upTo := history[..last + 1];
      assert upTo[..|upTo| - 1] == history[..last];
      AccumulatedMonotone(history, last + 1, y);
    }
  }

  /** The accumulated references are exactly the non-stream ancestors. */
  lemma AccumulatedIsAncestry(history: seq<Flow>, x: LocalizedResource, y: LocalizedResource)
    ensures x in Accumulated(history, y) <==> Ancestor(history, x, y)
  {
    if x in Accumulated(history, y) {
      var path := AccumulatedHasChain(history, x, y);
    }
    if Ancestor(history, x, y) {
      var path :| Chain(history, path, x, y);
      ChainIsAccumulated(history, path, x, y);
    }
  }
}

/**
 Deleted destinations: once a resource is deleted, nothing becomes one of its
 references but by a request that was judged, or is to be judged, by a policy of
 before the deletion.
 */
module Shielding {
  import opened Naming
  import opened Protocol
  import opened Recording
  import opened Deletion
  import opened Mediation
  import opened Theorems
  import Provenance

  /** A live request to `y` that is past the node of `x`, or holds a policy of `y` that is not deleted. */
  ghost predicate InFlightTo(resolve: Resolver, s: State, id: OpId, x: LocalizedResource, y: LocalizedResource) {
    && UnderWay(resolve, s, id, y)
    && (Past(resolve, s, id, x, y) || (s.ops[id].policy.Some? && !s.ops[id].policy.value.IsDeleted()))
  }

  /** The policy of a deleted destination forbids every flow, wherever it comes from. */
  lemma DeletedForbids(resolve: Resolver, s: State, a: Action, id: OpId, x: LocalizedResource, y: LocalizedResource)
    requires PolicyOf(s, y).IsDeleted() && !x.resource.IsStream()
    requires Evaluates(resolve, s, a, id, x, y)
    ensures s.ops[id].policy.Some? && !s.ops[id].policy.value.IsDeleted()
  {
    assert x.resource in Provenance.RefsAt(s.ops[id].refs, x.nodeId);
  }

  lemma InFlightToWasInFlightTo(resolve: Resolver, s: State, a: Action, id: OpId,
                                x: LocalizedResource, y: LocalizedResource)
    requires Inv(resolve, s) && PolicyOf(s, y).IsDeleted() && !x.resource.IsStream()
    requires InFlightTo(resolve, Next(resolve, s, a), id, x, y)
    ensures InFlightTo(resolve, s, id, x, y)
  {
    ActionTakesPolicy(resolve, s, a, id);
    if Past(resolve, Next(resolve, s, a), id, x, y) {
      ActionMediates(resolve, s, a, id, x, y);
      if Evaluates(resolve, s, a, id, x, y) {
        DeletedForbids(resolve, s, a, id, x, y);
      }
    }
    assert id in s.ops;
    SourceIsKept(resolve, s, a, id);
  }

  /** What becomes a reference of `y` comes from a request in flight to it. */
  lemma ReferencesAreInFlightTo(resolve: Resolver, s: State, a: Action, x: LocalizedResource, y: LocalizedResource)
    requires Inv(resolve, s)
    ensures x in ProvOf(Next(resolve, s, a), y) && x !in ProvOf(s, y) ==>
              exists id :: InFlightTo(resolve, s, id, x, y)
  {
    RecordingEffect(resolve, s, a);
    if Recorded(resolve, s, a).Some? {
      RecordedFlow(resolve, s, a);
      assert x in ProvOf(Next(resolve, s, a), y) && x !in ProvOf(s, y) ==> InFlightTo(resolve, s, a.id, x, y);
    }
  }

  lemma {:induction false} DeletedDestinationContains(resolve: Resolver, s: State, actions: seq<Action>,
                                                      x: LocalizedResource, y: LocalizedResource)
    requires Inv(resolve, s) && Admissible(resolve, actions)
    requires PolicyOf(s, y).IsDeleted() && !x.resource.IsStream()
    ensures x in ProvOf(Exec(resolve, s, actions), y) && x !in ProvOf(s, y) ==>
              exists id :: InFlightTo(resolve, s, id, x, y)
    decreases |actions|
  {
    if actions != [] {
      var a := actions[0];
      var s' := Next(resolve, s, a);
      RunsKeepInv(resolve, s, [a]);
      assert Exec(resolve, s, [a]) == s';
      DeletedIsKept(resolve, s, a, y);
      ReferencesAreInFlightTo(resolve, s, a, x, y);
      DeletedDestinationContains(resolve, s', actions[1..], x, y);
      if id :| InFlightTo(resolve, s', id, x, y) {
        InFlightToWasInFlightTo(resolve, s, a, id, x, y);
      }
    }
  }

  /** The operator deletes `y` on its node at any moment of any run: whatever is among its references later and was not
      then comes from a request that was in flight to it at the deletion. */
  lemma DeletedDestinationIsShielded(resolve: Resolver, s: State, actions: seq<Action>, k: nat,
                                     x: LocalizedResource, y: LocalizedResource)
    requires Initial(s) && Admissible(resolve, actions) && DeletesAt(resolve, s, actions, k, y)
    ensures var m, t := Exec(resolve, s, actions[..k]), Exec(resolve, s, actions);
            x in ProvOf(t, y) && x !in ProvOf(m, y) ==> exists id :: InFlightTo(resolve, m, id, x, y)
  {
    var m, d := DeletionSplitsRun(resolve, s, actions, k, y);
    if x in ProvOf(Exec(resolve, s, actions), y) {
      ReferencesAreNoStreams(resolve, s, actions, x, y);
      DeletedDestinationContains(resolve, d, actions[k + 1..], x, y);
      if id :| InFlightTo(resolve, d, id, x, y) {
        assert InFlightTo(resolve, m, id, x, y);
      }
    }
  }
}

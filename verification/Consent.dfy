/**
 Consent decisions, looked up from the most specific destination to the broadest,
 and the requests that wait for a decision nobody has taken yet.
 */
module Consent {
  import opened Wrappers
  import opened Naming
  import Compliance

  datatype Destination =
    | Scoped(resource: Resource, parent: Option<Destination>)
    | OfNode(node: NodeId)
  {
    function Broader(): Option<Destination> {
      if Scoped? then parent else None
    }
  }

  /** The destination consent is asked for when a flow is evaluated. */
  function FromLocalized(r: LocalizedResource): Destination {
    Scoped(r.resource, Some(OfNode(r.nodeId)))
  }

  datatype Key = Key(source: Resource, destination: Destination)

  type Decisions = map<Key, bool>

  // ---------------------------------------------------------------- lookup

  /** The destination and everything broader, most specific first. */
  function Hierarchy(d: Destination): seq<Destination>
    ensures |Hierarchy(d)| > 0 && Hierarchy(d)[0] == d
  {
    match d
    case Scoped(_, Some(parent)) => [d] + Hierarchy(parent)
    case _ => [d]
  }

  function Check(states: Decisions, source: Resource, d: Destination): Option<bool> {
    if Key(source, d) in states then Some(states[Key(source, d)])
    else
      match d
      case Scoped(_, Some(parent)) => Check(states, source, parent)
      case _ => None
  }

  /** The hierarchy climbs from the destination, one broader level at a time, as far as there is one. */
  lemma {:induction false} HierarchyClimbs(d: Destination)
    ensures var h := Hierarchy(d);
            && h[0] == d
            && (forall i :: 0 <= i < |h| - 1 ==> h[i].Scoped? && h[i].parent == Some(h[i + 1]))
            && (h[|h| - 1].OfNode? || h[|h| - 1].parent.None?)
  {
    match d
    case Scoped(_, Some(parent)) =>
      HierarchyClimbs(parent);
      BroaderHierarchy(d, parent);
    case _ =>
  }

  /** An evaluation looks for a decision about the very resource on its node first, and then about the whole node. */
  lemma ResourceBeforeNode(states: Decisions, source: Resource, r: LocalizedResource)
    ensures Hierarchy(FromLocalized(r)) == [Scoped(r.resource, Some(OfNode(r.nodeId))), OfNode(r.nodeId)]
    ensures var narrow := Key(source, Scoped(r.resource, Some(OfNode(r.nodeId))));
            var broad := Key(source, OfNode(r.nodeId));
            Check(states, source, FromLocalized(r))
            == if narrow in states then Some(states[narrow])
               else if broad in states then Some(states[broad])
               else None
  {
  }

  /** `d` at depth `i` of the hierarchy is decided and nothing more specific is. */
  ghost predicate DecidesAt(states: Decisions, source: Resource, d: Destination, i: nat) {
    && i < |Hierarchy(d)|
    && Key(source, Hierarchy(d)[i]) in states
    && forall j :: 0 <= j < i ==> Key(source, Hierarchy(d)[j]) !in states
  }

  lemma BroaderHierarchy(d: Destination, parent: Destination)
    requires d.Scoped? && d.parent == Some(parent)
    ensures |Hierarchy(d)| == |Hierarchy(parent)| + 1
    ensures forall i :: 0 <= i < |Hierarchy(parent)| ==> Hierarchy(d)[i + 1] == Hierarchy(parent)[i]
  {
  }

  /** A decision in the hierarchy with none more specific is the answer. */
  lemma {:induction false} MostSpecificIsGiven(states: Decisions, source: Resource, d: Destination, i: nat)
    requires DecidesAt(states, source, d, i)
    ensures Check(states, source, d) == Some(states[Key(source, Hierarchy(d)[i])])
  {
    if i > 0 {
      BroaderHierarchy(d, d.parent.value);
      assert Key(source, Hierarchy(d)[0]) !in states;
      forall j | 0 <= j < i - 1
        ensures Key(source, Hierarchy(d.parent.value)[j]) !in states
      {
        assert Hierarchy(d)[j + 1] == Hierarchy(d.parent.value)[j];
      }
      MostSpecificIsGiven(states, source, d.parent.value, i - 1);
    }
  }

  lemma DecidesFromAbove(states: Decisions, source: Resource, d: Destination, parent: Destination, i: nat)
    requires d.Scoped? && d.parent == Some(parent) && Key(source, d) !in states
    requires DecidesAt(states, source, parent, i)
    ensures DecidesAt(states, source, d, i + 1)
  {
    BroaderHierarchy(d, parent);
    forall j | 0 <= j < i + 1
      ensures Key(source, Hierarchy(d)[j]) !in states
    {
      assert j > 0 ==> Hierarchy(d)[j] == Hierarchy(parent)[j - 1];
    }
  }

  /** An answer comes from a decision in the hierarchy with none more specific. */
  lemma {:induction false} AnswerIsDecided(states: Decisions, source: Resource, d: Destination) returns (i: nat)
    requires Check(states, source, d).Some?
    ensures DecidesAt(states, source, d, i)
  {
    if Key(source, d) in states {
      i := 0;
    } else {
      var above := AnswerIsDecided(states, source, d.parent.value);
      DecidesFromAbove(states, source, d, d.parent.value, above);
      i := above + 1;
    }
  }

  /** The most specific decision is the answer; without any decision there is none. */
  lemma MostSpecificWins(states: Decisions, source: Resource, d: Destination, answer: bool)
    ensures Check(states, source, d) == Some(answer)
       <==> exists i: nat :: DecidesAt(states, source, d, i) && states[Key(source, Hierarchy(d)[i])] == answer
  {
    if Check(states, source, d) == Some(answer) {
      var i := AnswerIsDecided(states, source, d);
      MostSpecificIsGiven(states, source, d, i);
    }
    if i: nat :| DecidesAt(states, source, d, i) && states[Key(source, Hierarchy(d)[i])] == answer {
      MostSpecificIsGiven(states, source, d, i);
    }
  }

  /** The key lies at depth `i` of the hierarchy and nothing more specific than it is decided. */
  ghost predicate GovernsAt(states: Decisions, key: Key, source: Resource, d: Destination, i: nat) {
    && key.source == source
    && i < |Hierarchy(d)| && Hierarchy(d)[i] == key.destination
    && forall j :: 0 <= j < i ==> Key(source, Hierarchy(d)[j]) !in states
  }

  ghost predicate Governs(states: Decisions, key: Key, source: Resource, d: Destination) {
    exists i: nat :: GovernsAt(states, key, source, d, i)
  }

  /** A key that is not the most specific one governs what it governs one level up, as long as this level is
      undecided. */
  lemma GovernsFromAbove(states: Decisions, key: Key, source: Resource, d: Destination, parent: Destination)
    requires d.Scoped? && d.parent == Some(parent) && key != Key(source, d)
    ensures Governs(states, key, source, d) <==> Key(source, d) !in states && Governs(states, key, source, parent)
  {
    BroaderHierarchy(d, parent);
    if i: nat :| GovernsAt(states, key, source, d, i) {
      assert Key(source, Hierarchy(d)[0]) !in states;
      forall j | 0 <= j < i - 1
        ensures Key(source, Hierarchy(parent)[j]) !in states
      {
        assert Hierarchy(d)[j + 1] == Hierarchy(parent)[j];
      }
      assert GovernsAt(states, key, source, parent, i - 1);
    }
    if Key(source, d) !in states && Governs(states, key, source, parent) {
      var i: nat :| GovernsAt(states, key, source, parent, i);
      forall j | 0 <= j < i + 1
        ensures Key(source, Hierarchy(d)[j]) !in states
      {
        assert j > 0 ==> Hierarchy(d)[j] == Hierarchy(parent)[j - 1];
      }
      assert GovernsAt(states, key, source, d, i + 1);
    }
  }

  lemma {:induction false} EntryChangesWhatItGoverns(states: Decisions, key: Key, decision: bool,
                                                     source: Resource, d: Destination)
    ensures Check(states[key := decision], source, d)
         == if Governs(states, key, source, d) then Some(decision) else Check(states, source, d)
  {
    if key == Key(source, d) {
      assert GovernsAt(states, key, source, d, 0);
    } else if d.Scoped? && d.parent.Some? {
      EntryChangesWhatItGoverns(states, key, decision, source, d.parent.value);
      GovernsFromAbove(states, key, source, d, d.parent.value);
    } else {
      assert Hierarchy(d) == [d];
    }
  }

  /** Taking a decision, be it the first or a later one for its key, changes exactly the answers it governs. */
  lemma DecisionChangesWhatItGoverns(book: Book, key: Key, consent: bool, source: Resource, d: Destination)
    ensures Check(Decide(book, key, consent).states, source, d)
         == if Governs(book.states, key, source, d) then Some(consent) else Check(book.states, source, d)
  {
    EntryChangesWhatItGoverns(book.states, key, consent, source, d);
  }

  /** The last decision for a key is the one that counts. */
  lemma LastDecisionCounts(book: Book, key: Key, first: bool, last: bool)
    ensures Check(Decide(Decide(book, key, first), key, last).states, key.source, key.destination) == Some(last)
  {
  }

  // ---------------------------------------------------------------- waiting for a decision

  type RequesterId = nat

  /** A request that found no decision, and the decisions that have reached its channels since. One that
      timed out is a requester whose inbox nobody reads. */
  datatype Requester = Requester(source: Resource, destination: Destination, inbox: seq<bool>)

  /** The tables of the service: decisions taken, resources with an owner to notify, and per undecided
      key the requesters subscribed to its channel. */
  datatype Book = Book(states: Decisions, owned: set<Resource>, channels: map<Key, set<RequesterId>>,
                       requesters: map<RequesterId, Requester>)

  function Subscribe(channels: map<Key, set<RequesterId>>, key: Key, ids: set<RequesterId>)
    : map<Key, set<RequesterId>>
  {
    channels[key := (if key in channels then channels[key] else {}) + ids]
  }

  function BothChannels(channels: map<Key, set<RequesterId>>, source: Resource, d: Destination, ids: set<RequesterId>)
    : map<Key, set<RequesterId>>
  {
    var own := Subscribe(channels, Key(source, d), ids);
    if d.Broader().Some? then Subscribe(own, Key(source, d.Broader().value), ids) else own
  }

  datatype Answer = Answered(consent: bool) | Waiting | Failed

  /** A decision that exists is given; a source without an owner consents to nothing; otherwise the
      requester subscribes to the channels of the destination and of its parent, and waits. If the owner
      no longer listens to notifications the request fails, and only its channels remain. */
  function Ask(book: Book, id: RequesterId, source: Resource, d: Destination, listening: bool): (Book, Answer)
    requires id !in book.requesters
  {
    match Check(book.states, source, d)
    case Some(consent) => (book, Answered(consent))
    case None =>
      if source !in book.owned then (book, Answered(false))
      else
        var ids := if listening then {id} else {};
        var both := BothChannels(book.channels, source, d, ids);
        if listening then
          (book.(channels := both, requesters := book.requesters[id := Requester(source, d, [])]), Waiting)
        else
          (book.(channels := both), Failed)
  }

  function Deliver(requesters: map<RequesterId, Requester>, to: set<RequesterId>, consent: bool)
    : map<RequesterId, Requester>
  {
    map id | id in requesters ::
      if id in to then requesters[id].(inbox := requesters[id].inbox + [consent]) else requesters[id]
  }

  function Decide(book: Book, key: Key, consent: bool): Book {
    book.(states := book.states[key := consent],
          requesters := if key in book.channels then Deliver(book.requesters, book.channels[key], consent)
                        else book.requesters,
          channels := book.channels - {key})
  }

  datatype Event =
    | Owning(resource: Resource)
    | Asking(id: RequesterId, source: Resource, destination: Destination, listening: bool)
    | Deciding(key: Key, consent: bool)

  function Handle(book: Book, event: Event): Book {
    match event
    case Owning(r) => book.(owned := book.owned + {r})
    case Asking(id, source, d, listening) =>
      if id in book.requesters then book else Ask(book, id, source, d, listening).0
    case Deciding(key, consent) => Decide(book, key, consent)
  }

  function HandleAll(book: Book, events: seq<Event>): Book
    decreases |events|
  {
    if events == [] then book else HandleAll(Handle(book, events[0]), events[1..])
  }

  lemma {:induction false} HandleInTurn(book: Book, events: seq<Event>, last: Event)
    ensures HandleAll(book, []) == book
    ensures HandleAll(book, events + [last]) == Handle(HandleAll(book, events), last)
    decreases |events|
  {
    if events == [] {
      assert [last][1..] == [];
    } else {
      assert (events + [last])[1..] == events[1..] + [last];
      HandleInTurn(Handle(book, events[0]), events[1..], last);
    }
  }

  const EMPTY := Book(map[], {}, map[], map[])

  predicate ListensTo(r: Requester, key: Key) {
    key.source == r.source
    && (key.destination == r.destination || Some(key.destination) == r.destination.Broader())
  }

  ghost predicate Subscribed(book: Book, key: Key, id: RequesterId) {
    key in book.channels && id in book.channels[key]
  }

  /** Only undecided keys have a channel, whoever subscribed to one asked about it or something
      narrower, and whoever still waits is subscribed to all of its channels. */
  ghost predicate Consistent(book: Book) {
    && (forall key :: key in book.channels ==> key !in book.states)
    && (forall key, id :: Subscribed(book, key, id) ==>
          id in book.requesters && ListensTo(book.requesters[id], key))
    && forall id :: id in book.requesters && book.requesters[id].inbox == [] ==>
         var r := book.requesters[id];
         && Subscribed(book, Key(r.source, r.destination), id)
         && (r.destination.Broader().Some? ==> Subscribed(book, Key(r.source, r.destination.Broader().value), id))
  }

  lemma OwningKeepsConsistent(book: Book, r: Resource)
    requires Consistent(book)
    ensures Consistent(Handle(book, Owning(r)))
  {
    var after := Handle(book, Owning(r));
    assert forall key, id :: Subscribed(after, key, id) <==> Subscribed(book, key, id);
  }

  lemma AskKeepsConsistent(book: Book, id: RequesterId, source: Resource, d: Destination, listening: bool)
    requires Consistent(book) && id !in book.requesters
    ensures Consistent(Ask(book, id, source, d, listening).0)
  {
    var after := Ask(book, id, source, d, listening).0;
    if d.Broader().Some? {
      assert Check(book.states, source, d).None? ==> Check(book.states, source, d.Broader().value).None?;
    }
    forall key, i | Subscribed(after, key, i)
      ensures i in after.requesters && ListensTo(after.requesters[i], key)
    {
      AskSubscribesItself(book, id, source, d, listening, key, i);
    }
  }

  lemma AskSubscribesItself(book: Book, id: RequesterId, source: Resource, d: Destination, listening: bool,
                            key: Key, i: RequesterId)
    requires Consistent(book) && id !in book.requesters
    requires Subscribed(Ask(book, id, source, d, listening).0, key, i)
    ensures var after := Ask(book, id, source, d, listening).0;
            i in after.requesters && ListensTo(after.requesters[i], key)
  {
    assert i != id ==> Subscribed(book, key, i);
    assert !Subscribed(book, key, id);
  }

  lemma DecideKeepsConsistent(book: Book, key: Key, consent: bool)
    requires Consistent(book)
    ensures Consistent(Decide(book, key, consent))
  {
    var after := Decide(book, key, consent);
    forall k, id | Subscribed(after, k, id)
      ensures id in after.requesters && ListensTo(after.requesters[id], k)
    {
      assert Subscribed(book, k, id);
    }
    forall id | id in after.requesters && after.requesters[id].inbox == []
      ensures var r := after.requesters[id];
              && Subscribed(after, Key(r.source, r.destination), id)
              && (r.destination.Broader().Some? ==> Subscribed(after, Key(r.source, r.destination.Broader().value), id))
    {
      assert book.requesters[id].inbox == [];
    }
  }

  lemma {:induction false} RunsAreConsistent(book: Book, events: seq<Event>)
    requires Consistent(book)
    ensures Consistent(HandleAll(book, events))
    decreases |events|
  {
    if events != [] {
      match events[0] {
        case Owning(r) => OwningKeepsConsistent(book, r);
        case Asking(id, source, d, listening) =>
          if id !in book.requesters { AskKeepsConsistent(book, id, source, d, listening); }
        case Deciding(key, consent) => DecideKeepsConsistent(book, key, consent);
      }
      RunsAreConsistent(Handle(book, events[0]), events[1..]);
    }
  }

  /** What a waiting requester misses: the two levels it listens to are undecided, so the present answer
      to its question, if there is one, comes from a level broader than the parent. */
  function Missed(states: Decisions, source: Resource, d: Destination): Option<bool> {
    if d.Broader().Some? && d.Broader().value.Broader().Some? then
      Check(states, source, d.Broader().value.Broader().value)
    else None
  }

  /** Over any run, a requester that waits has missed no decision about its destination or its parent;
      with a hierarchy of at most two levels it has missed none at all. */
  lemma NoDecisionIsLost(events: seq<Event>, id: RequesterId)
    ensures var book := HandleAll(EMPTY, events);
            id in book.requesters && book.requesters[id].inbox == [] ==>
              var r := book.requesters[id];
              && Check(book.states, r.source, r.destination) == Missed(book.states, r.source, r.destination)
              && (|Hierarchy(r.destination)| <= 2 ==> Check(book.states, r.source, r.destination).None?)
  {
    RunsAreConsistent(EMPTY, events);
    var book := HandleAll(EMPTY, events);
    if id in book.requesters && book.requesters[id].inbox == [] {
      var r := book.requesters[id];
      if r.destination.Broader().Some? {
        var parent := r.destination.Broader().value;
        assert Hierarchy(r.destination) == [r.destination] + Hierarchy(parent);
        if parent.Broader().Some? {
          assert Hierarchy(parent) == [parent] + Hierarchy(parent.Broader().value);
        }
      }
    }
  }

  /** The decision that wakes a requester is the answer it would now get. */
  lemma WakingDecisionIsTheAnswer(events: seq<Event>, key: Key, consent: bool, id: RequesterId)
    ensures var before := HandleAll(EMPTY, events);
            var after := Decide(before, key, consent);
            id in before.requesters && before.requesters[id].inbox == [] && after.requesters[id].inbox != [] ==>
              && after.requesters[id].inbox == [consent]
              && Check(after.states, before.requesters[id].source, before.requesters[id].destination) == Some(consent)
  {
    RunsAreConsistent(EMPTY, events);
    var before := HandleAll(EMPTY, events);
    if id in before.requesters && Decide(before, key, consent).requesters[id].inbox != before.requesters[id].inbox {
      assert Subscribed(before, key, id);
    }
  }

  /** With three levels a decision can be taken that nobody tells the requester about. */
  lemma BroadDecisionIsMissed(source: Resource, a: Resource, b: Resource, node: NodeId)
    ensures var broad := OfNode(node);
            var d := Scoped(a, Some(Scoped(b, Some(broad))));
            var asked := Handle(Handle(EMPTY, Owning(source)), Asking(0, source, d, true));
            var book := Handle(asked, Deciding(Key(source, broad), true));
            && 0 in book.requesters && book.requesters[0] == Requester(source, d, [])
            && Check(book.states, source, d) == Some(true)
  {
    var broad := OfNode(node);
    var parent := Scoped(b, Some(broad));
    var d := Scoped(a, Some(parent));
    assert Check(map[], source, broad).None?;
    assert Check(map[], source, parent).None?;
    assert Check(map[], source, d).None?;
    var asked := Handle(Handle(EMPTY, Owning(source)), Asking(0, source, d, true));
    assert asked.requesters == map[0 := Requester(source, d, [])];
    assert Key(source, broad) !in asked.channels;
    var book := Handle(asked, Deciding(Key(source, broad), true));
    assert Check(book.states, source, broad) == Some(true);
    assert Check(book.states, source, parent) == Some(true);
  }

  // ---------------------------------------------------------------- consent in an evaluation

  /** Decided, or without an owner to decide: nobody has to wait. */
  predicate AtOnce(book: Book, source: Resource, d: Destination) {
    Check(book.states, source, d).Some? || source !in book.owned
  }

  /** `ids` subscribed to the channels of the destination and of the next broader one, which were created if needed,
      and no other channel changed. */
  ghost predicate SubscribesTo(before: map<Key, set<RequesterId>>, after: map<Key, set<RequesterId>>,
                               source: Resource, d: Destination, ids: set<RequesterId>)
  {
    forall key: Key ::
      var asked := key.source == source
                   && (key.destination == d || (d.Scoped? && d.parent == Some(key.destination)));
      && (key in after <==> key in before || asked)
      && (key in after ==> after[key] == (if key in before then before[key] else {}) + (if asked then ids else {}))
  }

  /** A request that is not answered subscribes, if the owner listens. */
  lemma AskingSubscribes(book: Book, id: RequesterId, source: Resource, d: Destination, listening: bool)
    requires id !in book.requesters
    ensures var (after, answer) := Ask(book, id, source, d, listening);
            if answer.Answered? then after.channels == book.channels
            else SubscribesTo(book.channels, after.channels, source, d, if listening then {id} else {})
  {
  }

  /** Such a question is answered at once, with the decision if there is one; any other waits, if the owner listens. */
  lemma AnsweredAtOnceExactly(book: Book, id: RequesterId, source: Resource, d: Destination, listening: bool)
    requires id !in book.requesters
    ensures AtOnce(book, source, d) ==>
              Ask(book, id, source, d, listening) == (book, Answered(Check(book.states, source, d) == Some(true)))
    ensures !AtOnce(book, source, d) ==>
              Ask(book, id, source, d, listening).1 == if listening then Waiting else Failed
  {
  }

  /** The answers an evaluation receives for a destination once nobody has to wait. */
  function AnswersOf(book: Book, policies: Compliance.Policies, sources: set<Resource>, destination: LocalizedResource)
    : map<Resource, bool>
  {
    map s | s in Compliance.Asked(policies, sources) :: Check(book.states, s, FromLocalized(destination)) == Some(true)
  }

  /** With these answers a flow is granted exactly if every source meets the rules and, where consent is enforced,
      the most specific decision for this resource on this node is a yes. */
  lemma EvaluationNeedsDecisions(book: Book, policies: Compliance.Policies, node: NodeId, sources: set<Resource>,
                                 destination: LocalizedResource, sent: Option<Compliance.Policy>)
    ensures var policy := Compliance.DestinationPolicy(policies, node, destination, sent);
            Compliance.EvalGrants(policies, node, sources, destination, sent,
                                  Compliance.Consenting(AnswersOf(book, policies, sources, destination)))
            <==>
            && policy.Some?
            && forall s :: s in sources && !s.IsStream() ==>
                 && Compliance.RulesPass(Compliance.Lookup(policies, s), policy.value)
                 && (Compliance.Lookup(policies, s).consent ==>
                       exists i: nat :: DecidesAt(book.states, s, FromLocalized(destination), i)
                                     && book.states[Key(s, Hierarchy(FromLocalized(destination))[i])])
  {
    var consenting := Compliance.Consenting(AnswersOf(book, policies, sources, destination));
    forall s | s in sources && !s.IsStream() && Compliance.Lookup(policies, s).consent
      ensures s in consenting <==>
        exists i: nat :: DecidesAt(book.states, s, FromLocalized(destination), i)
                      && book.states[Key(s, Hierarchy(FromLocalized(destination))[i])]
    {
      assert s in Compliance.Asked(policies, sources);
      MostSpecificWins(book.states, s, FromLocalized(destination), true);
    }
    var policy := Compliance.DestinationPolicy(policies, node, destination, sent);
    assert policy.Some? ==> forall s :: s in sources ==>
      (Compliance.SourcePasses(policies, s, policy.value, consenting)
       <==> s.IsStream() || (&& Compliance.RulesPass(Compliance.Lookup(policies, s), policy.value)
                             && (Compliance.Lookup(policies, s).consent ==> s in consenting)));
  }

  // ---------------------------------------------------------------- the service

  class ConsentService {
    var states: Decisions
    var notifications: map<Resource, seq<Destination>>
    var channels: map<Key, set<RequesterId>>
    var requesters: map<RequesterId, Requester>

    /** The tables as a value. */
    function Tables(): Book
      reads this
    {
      Book(states, notifications.Keys, channels, requesters)
    }

    constructor ()
      ensures Tables() == EMPTY
    {
      states, notifications, channels, requesters := map[], map[], map[], map[];
    }

    method TakeResourceOwnership(r: Resource)
      modifies this
      ensures Tables() == Handle(old(Tables()), Owning(r))
      ensures states == old(states) && channels == old(channels) && requesters == old(requesters)
      ensures notifications == if r in old(notifications) then old(notifications) else old(notifications)[r := []]
    {
      if r !in notifications {
        notifications := notifications[r := []];
      }
      assert notifications.Keys == old(notifications.Keys) + {r};
    }

    method GetOrCreateDecisionChannel(key: Key, subscribers: set<RequesterId>)
      modifies this`channels
      ensures channels == Subscribe(old(channels), key, subscribers)
      ensures channels == old(channels)[key := (if key in old(channels) then old(channels)[key] else {}) + subscribers]
    {
      if key in channels {
        channels := channels[key := channels[key] + subscribers];
      } else {
        channels := channels[key := {} + subscribers];
      }
    }

    /** The channel of the destination, and of its parent if it has one. */
    method SubscribeToBoth(source: Resource, destination: Destination, subscribers: set<RequesterId>)
      modifies this`channels
      ensures channels == BothChannels(old(channels), source, destination, subscribers)
    {
      GetOrCreateDecisionChannel(Key(source, destination), subscribers);
      if destination.Broader().Some? {
        GetOrCreateDecisionChannel(Key(source, destination.Broader().value), subscribers);
      }
    }

    /** Asks for consent as far as the first wait. `listening` tells whether the owner still receives
        notifications; the receivers of a request that fails are dropped with it. */
    method GetConsent(id: RequesterId, source: Resource, destination: Destination, listening: bool)
      returns (answer: Answer)
      requires id !in requesters
      modifies this
      ensures (Tables(), answer) == Ask(old(Tables()), id, source, destination, listening)
      ensures answer == (if Check(old(states), source, destination).Some? then
                           Answered(Check(old(states), source, destination).value)
                         else if source !in old(notifications) then Answered(false)
                         else if listening then Waiting
                         else Failed)
      ensures states == old(states)
      ensures requesters == if answer.Waiting? then old(requesters)[id := Requester(source, destination, [])]
                            else old(requesters)
      ensures if answer.Answered? then channels == old(channels)
              else SubscribesTo(old(channels), channels, source, destination, if listening then {id} else {})
      ensures notifications == if answer.Waiting?
                               then old(notifications)[source := old(notifications)[source] + [destination]]
                               else old(notifications)
    {
      AskingSubscribes(Tables(), id, source, destination, listening);
      var decision := Check(states, source, destination);
      if decision.Some? {
        return Answered(decision.value);
      }
      if source !in notifications {
        return Answered(false);
      }
      var subscribers := if listening then {id} else {};
      SubscribeToBoth(source, destination, subscribers);
      if !listening {
        return Failed;
      }
      notifications := notifications[source := notifications[source] + [destination]];
      requesters := requesters[id := Requester(source, destination, [])];
      assert notifications.Keys == old(notifications.Keys);
      return Waiting;
    }

    method SetConsent(source: Resource, destination: Destination, consent: bool)
      modifies this
      ensures Tables() == Handle(old(Tables()), Deciding(Key(source, destination), consent))
      ensures states == old(states)[Key(source, destination) := consent]
      ensures Check(states, source, destination) == Some(consent)
      ensures channels == old(channels) - {Key(source, destination)} && notifications == old(notifications)
      ensures requesters.Keys == old(requesters).Keys
      ensures forall id :: id in requesters ==>
                var before := old(requesters)[id];
                requesters[id]
                == if Key(source, destination) in old(channels) && id in old(channels)[Key(source, destination)]
                   then Requester(before.source, before.destination, before.inbox + [consent])
                   else before
    {
      var key := Key(source, destination);
      states := states[key := consent];
      if key in channels {
        var feed := channels[key];
        channels := channels - {key};
        requesters := Deliver(requesters, feed, consent);
      } else {
        assert channels - {key} == channels;
      }
    }
  }
}

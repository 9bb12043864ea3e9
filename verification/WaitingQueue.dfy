/**
 The waiting queue above the sequencer: a failed reservation joins the queues of
 the resources it lacked and tries again when it has been woken from them.

 While a call waits, other tasks run. `World` is the shared state, together with
 its history; during a wait other tasks may do to it whatever the methods here
 guarantee themselves: the queues stay sound and the history only grows.
 */
module WaitingQueue {
  import opened Wrappers
  import opened Naming
  import opened Sequencer

  /** Stands for the sending half of a one-shot channel. */
  type Ticket = nat

  type Queues = map<Resource, seq<Ticket>>

  /** The table, the queues, and for each queue everyone who ever joined and everyone who was woken. */
  datatype World = World(flows: Flows, waiting: Queues, nextTicket: nat, joined: Queues, woken: Queues)

  function At(queues: Queues, r: Resource): seq<Ticket> {
    if r in queues then queues[r] else []
  }

  // ---------------------------------------------------------------- soundness and history

  /** Everyone who ever joined a queue has been woken in order of arrival, or still stands in that order. */
  ghost predicate Fifo(w: World) {
    forall r :: At(w.joined, r) == At(w.woken, r) + At(w.waiting, r)
  }

  ghost predicate JoinedAt(w: World, r: Resource, i: nat, ticket: Ticket) {
    i < |At(w.joined, r)| && At(w.joined, r)[i] == ticket
  }

  ghost predicate Issued(w: World) {
    forall r, i: nat, ticket: Ticket :: JoinedAt(w, r, i, ticket) ==> ticket < w.nextTicket
  }

  /** No ticket is in two queues, or twice in one. */
  ghost predicate Unique(w: World) {
    forall r, q, i: nat, j: nat, ticket: Ticket ::
      JoinedAt(w, r, i, ticket) && JoinedAt(w, q, j, ticket) ==> r == q && i == j
  }

  ghost predicate Sound(w: World) {
    Fifo(w) && Issued(w) && Unique(w)
  }

  /** What has happened stays in the history. */
  ghost predicate Extends(w: World, w': World) {
    && w.nextTicket <= w'.nextTicket
    && (forall r :: At(w.joined, r) <= At(w'.joined, r))
    && (forall r :: At(w.woken, r) <= At(w'.woken, r))
  }

  ghost predicate IsWoken(w: World, ticket: Ticket) {
    exists r :: ticket in At(w.woken, r)
  }

  lemma ExtendsFurther(a: World, b: World, c: World)
    requires Extends(a, b) && Extends(b, c)
    ensures Extends(a, c)
  {
    forall r
      ensures At(a.joined, r) <= At(c.joined, r) && At(a.woken, r) <= At(c.woken, r)
    {
      assert At(a.joined, r) <= At(b.joined, r) <= At(c.joined, r);
      assert At(a.woken, r) <= At(b.woken, r) <= At(c.woken, r);
    }
  }

  lemma QueuesMindTheirOwn(w: World, flows: Flows)
    requires Sound(w)
    ensures Sound(w.(flows := flows)) && Extends(w, w.(flows := flows))
  {
    var w' := w.(flows := flows);
    assert forall r, i: nat, ticket: Ticket :: JoinedAt(w', r, i, ticket) == JoinedAt(w, r, i, ticket);
  }

  // ---------------------------------------------------------------- joining

  function Enqueue(w: World, r: Resource): World {
    w.(waiting := w.waiting[r := At(w.waiting, r) + [w.nextTicket]],
       joined := w.joined[r := At(w.joined, r) + [w.nextTicket]],
       nextTicket := w.nextTicket + 1)
  }

  lemma EnqueueIsFifo(w: World, r: Resource)
    requires Fifo(w)
    ensures Fifo(Enqueue(w, r)) && Extends(w, Enqueue(w, r))
  {
    var w' := Enqueue(w, r);
    forall q
      ensures At(w'.joined, q) == At(w'.woken, q) + At(w'.waiting, q)
      ensures At(w.joined, q) <= At(w'.joined, q)
    {
    }
  }

  lemma EnqueueJoinsOne(w: World, r: Resource, q: Resource, i: nat, ticket: Ticket)
    ensures JoinedAt(Enqueue(w, r), q, i, ticket)
       <==> JoinedAt(w, q, i, ticket) || (q == r && i == |At(w.joined, r)| && ticket == w.nextTicket)
  {
  }

  /** The ticket is new: it is in no queue and never was. */
  lemma EnqueueIsSound(w: World, r: Resource)
    requires Sound(w)
    ensures Sound(Enqueue(w, r)) && Extends(w, Enqueue(w, r))
    ensures forall q :: w.nextTicket !in At(w.joined, q)
  {
    EnqueueIsFifo(w, r);
    forall q, i: nat, ticket: Ticket
      ensures JoinedAt(Enqueue(w, r), q, i, ticket)
         <==> JoinedAt(w, q, i, ticket) || (q == r && i == |At(w.joined, r)| && ticket == w.nextTicket)
    {
      EnqueueJoinsOne(w, r, q, i, ticket);
    }
    forall q, i | 0 <= i < |At(w.joined, q)|
      ensures At(w.joined, q)[i] < w.nextTicket
    {
      assert JoinedAt(w, q, i, At(w.joined, q)[i]);
    }
  }

  /** How often a request that finds these reservations lacks the resource `q`. */
  function Lacked(flows: Flows, source: Resource, destination: Resource, q: Resource): nat {
    (if q == source && AddReader(LockOf(flows, q)).None? then 1 else 0)
    + (if q == destination && AddWriter(LockOf(flows, q)).None? then 1 else 0)
  }

  lemma LackedIsBusy(flows: Flows, source: Resource, destination: Resource)
    ensures AddReader(LockOf(flows, source)).None? <==> source in flows
    ensures AddWriter(LockOf(flows, destination)).None? <==> destination in flows || HasReader(flows, destination)
  {
    ReadersEmpty(flows, destination);
  }

  /** What an error makes of the queues. */
  function EnqueueAll(w: World, error: Error): World {
    match error
    case UnavailableSource(s) => Enqueue(w, s)
    case UnavailableDestination(d) => Enqueue(w, d)
    case UnavailableSourceAndDestination(s, d) => Enqueue(Enqueue(w, s), d)
    case ReachedMaxRetriesWaitingQueue => w
  }

  lemma EnqueueAllIsSound(w: World, error: Error)
    requires Sound(w)
    ensures Sound(EnqueueAll(w, error)) && Extends(w, EnqueueAll(w, error))
  {
    match error
    case UnavailableSource(s) => EnqueueIsSound(w, s);
    case UnavailableDestination(d) => EnqueueIsSound(w, d);
    case UnavailableSourceAndDestination(s, d) =>
      EnqueueIsSound(w, s);
      EnqueueIsSound(Enqueue(w, s), d);
      ExtendsFurther(w, Enqueue(w, s), Enqueue(Enqueue(w, s), d));
    case ReachedMaxRetriesWaitingQueue =>
  }

  /** The error of a reservation that cannot be made. */
  function Refusal(flows: Flows, source: Resource, destination: Resource): Error {
    if source !in flows then UnavailableDestination(destination)
    else if destination !in flows && !HasReader(flows, destination) then UnavailableSource(source)
    else UnavailableSourceAndDestination(source, destination)
  }

  lemma EnqueueGrowsOne(w: World, r: Resource, q: Resource)
    ensures At(Enqueue(w, r).joined, q) == At(w.joined, q) + (if q == r then [w.nextTicket] else [])
  {
  }

  /** A refused attempt joins exactly the queues of what it lacked, once each. */
  lemma RefusalJoinsWhatIsLacked(w: World, source: Resource, destination: Resource, q: Resource)
    requires !MayReserve(w.flows, source, destination)
    ensures var w' := EnqueueAll(w, Refusal(w.flows, source, destination));
            && At(w.joined, q) <= At(w'.joined, q)
            && |At(w'.joined, q)| == |At(w.joined, q)| + Lacked(w.flows, source, destination, q)
  {
    LackedIsBusy(w.flows, source, destination);
    EnqueueGrowsOne(w, source, q);
    EnqueueGrowsOne(w, destination, q);
    EnqueueGrowsOne(Enqueue(w, source), destination, q);
  }

  // ---------------------------------------------------------------- waking

  function Notify(w: World, resource: Option<Resource>): World {
    if resource.Some? && At(w.waiting, resource.value) != [] then
      var r := resource.value;
      w.(waiting := w.waiting[r := At(w.waiting, r)[1..]],
         woken := w.woken[r := At(w.woken, r) + [At(w.waiting, r)[0]]])
    else w
  }

  lemma FirstMovesOver(all: seq<Ticket>, woken: seq<Ticket>, waiting: seq<Ticket>)
    requires all == woken + waiting && waiting != []
    ensures all == (woken + [waiting[0]]) + waiting[1..]
  {
    assert waiting == [waiting[0]] + waiting[1..];
  }

  lemma NotifyIsFifo(w: World, resource: Option<Resource>)
    requires Fifo(w)
    ensures Fifo(Notify(w, resource)) && Extends(w, Notify(w, resource))
  {
    var w' := Notify(w, resource);
    forall q
      ensures At(w'.joined, q) == At(w'.woken, q) + At(w'.waiting, q) && At(w.woken, q) <= At(w'.woken, q)
    {
      if resource == Some(q) && At(w.waiting, q) != [] {
        FirstMovesOver(At(w.joined, q), At(w.woken, q), At(w.waiting, q));
      }
    }
  }

  /** Waking keeps the whole history of joins. */
  lemma NotifyIsSound(w: World, resource: Option<Resource>)
    requires Sound(w)
    ensures Sound(Notify(w, resource)) && Extends(w, Notify(w, resource))
  {
    NotifyIsFifo(w, resource);
    assert forall r, i: nat, ticket: Ticket :: JoinedAt(Notify(w, resource), r, i, ticket) == JoinedAt(w, r, i, ticket);
  }

  function NotifyBoth(w: World, response: Response): World
    requires response.FlowReleased?
  {
    Notify(Notify(w, response.source), response.destination)
  }

  /** How often a release names the resource `q`. */
  function Reports(response: Response, q: Resource): nat
    requires response.FlowReleased?
  {
    (if response.source == Some(q) then 1 else 0) + (if response.destination == Some(q) then 1 else 0)
  }

  function Front(queue: seq<Ticket>, n: nat): seq<Ticket> {
    if n <= |queue| then queue[..n] else queue
  }

  lemma FrontThenFront(queue: seq<Ticket>, m: nat, n: nat)
    requires m <= 1 && n <= 1
    ensures Front(queue, m) + Front(queue[|Front(queue, m)|..], n) == Front(queue, m + n)
  {
    if |queue| > 1 {
      assert queue[..1] + queue[1..][..1] == queue[..2];
    }
  }

  lemma Regroup(a: seq<Ticket>, b: seq<Ticket>, c: seq<Ticket>)
    ensures a + b + c == a + (b + c)
  {
  }

  lemma NotifyWakesFront(w: World, resource: Option<Resource>, q: Resource)
    ensures var w' := Notify(w, resource);
            var n := if resource == Some(q) then 1 else 0;
            && At(w'.woken, q) == At(w.woken, q) + Front(At(w.waiting, q), n)
            && At(w'.waiting, q) == At(w.waiting, q)[|Front(At(w.waiting, q), n)|..]
  {
  }

  /** Each mention in a release wakes the longest-waiting ticket left in that queue, and no other is woken. */
  lemma ReleaseWakesFronts(w: World, response: Response, q: Resource)
    requires response.FlowReleased?
    ensures At(NotifyBoth(w, response).woken, q)
         == At(w.woken, q) + Front(At(w.waiting, q), Reports(response, q))
  {
    var mid, all := Notify(w, response.source), At(w.waiting, q);
    var m: nat, n: nat := if response.source == Some(q) then 1 else 0, if response.destination == Some(q) then 1 else 0;
    NotifyWakesFront(w, response.source, q);
    NotifyWakesFront(mid, response.destination, q);
    FrontThenFront(all, m, n);
    Regroup(At(w.woken, q), Front(all, m), Front(all[|Front(all, m)|..], n));
  }

  /** Whoever waits longest for a released resource is woken, and nobody who waits for another. */
  ghost predicate Wakes(w: World, response: Response, w': World)
    requires response.FlowReleased?
  {
    forall q ::
      && (At(w.waiting, q) != [] && (response.source == Some(q) || response.destination == Some(q)) ==>
            At(w.woken, q) + [At(w.waiting, q)[0]] <= At(w'.woken, q))
      && (response.source != Some(q) && response.destination != Some(q) ==> At(w'.woken, q) == At(w.woken, q))
  }

  lemma ReleaseWakesHeads(w: World, response: Response)
    requires response.FlowReleased?
    ensures forall q :: At(NotifyBoth(w, response).woken, q)
                     == At(w.woken, q) + Front(At(w.waiting, q), Reports(response, q))
    ensures Wakes(w, response, NotifyBoth(w, response))
  {
    forall q
      ensures At(NotifyBoth(w, response).woken, q)
           == At(w.woken, q) + Front(At(w.waiting, q), Reports(response, q))
    {
      ReleaseWakesFronts(w, response, q);
    }
  }

  lemma NotifyBothIsSound(w: World, response: Response)
    requires Sound(w) && response.FlowReleased?
    ensures Sound(NotifyBoth(w, response)) && Extends(w, NotifyBoth(w, response))
  {
    NotifyIsSound(w, response.source);
    NotifyIsSound(Notify(w, response.source), response.destination);
    ExtendsFurther(w, Notify(w, response.source), NotifyBoth(w, response));
  }

  // ---------------------------------------------------------------- whole runs

  /** What any task does to the shared state: it joins a queue, wakes from one, or reserves and releases. */
  datatype Event =
    | Joining(resource: Resource)
    | Waking(reported: Option<Resource>)
    | Moving(request: Request)

  function After(w: World, event: Event): World {
    match event
    case Joining(r) => Enqueue(w, r)
    case Waking(reported) => Notify(w, reported)
    case Moving(request) => w.(flows := Attempt(w.flows, request))
  }

  function Happen(w: World, events: seq<Event>): World
    decreases |events|
  {
    if events == [] then w else Happen(After(w, events[0]), events[1..])
  }

  /** Over any run of any number of tasks those who ever joined a queue are those woken followed by those waiting,
      each ticket once, and what has happened stays in the history. */
  lemma {:induction false} RunsKeepHistory(w: World, events: seq<Event>)
    requires Sound(w)
    ensures Sound(Happen(w, events)) && Extends(w, Happen(w, events))
    decreases |events|
  {
    if events != [] {
      match events[0] {
        case Joining(r) => EnqueueIsSound(w, r);
        case Waking(reported) => NotifyIsSound(w, reported);
        case Moving(request) => QueuesMindTheirOwn(w, Attempt(w.flows, request));
      }
      RunsKeepHistory(After(w, events[0]), events[1..]);
      ExtendsFurther(w, After(w, events[0]), Happen(w, events));
    }
  }

  // ---------------------------------------------------------------- a call and its waits

  /** `max_retries + 1` in 32-bit arithmetic without overflow checks. */
  function Tries(maxRetries: u32): nat {
    (maxRetries + 1) % 0x1_0000_0000
  }

  ghost predicate Fails(w: World, request: Request) {
    request.ReserveFlow? && !MayReserve(w.flows, request.source, request.destination)
  }

  /** The state in which a call makes its attempt `i`. */
  function WorldAt(first: World, others: seq<World>, i: nat): World
    requires i <= |others|
  {
    if i == 0 then first else others[i - 1]
  }

  function AfterRefusal(w: World, request: Request): World
    requires request.ReserveFlow?
  {
    EnqueueAll(w, Refusal(w.flows, request.source, request.destination))
  }

  /** `w'` is a state in which a call goes on that was refused in `w`: other tasks extended the history, and the
      tickets drawn at the refusal have been woken. */
  ghost predicate GoesOn(w: World, request: Request, w': World)
    requires request.ReserveFlow?
  {
    && Sound(w') && Extends(AfterRefusal(w, request), w')
    && forall ticket :: w.nextTicket <= ticket < AfterRefusal(w, request).nextTicket ==> IsWoken(w', ticket)
  }

  /** The states found after each wait. */
  ghost predicate Waits(first: World, request: Request, others: seq<World>) {
    forall i :: 0 <= i < |others| && Fails(WorldAt(first, others, i), request) ==>
      GoesOn(WorldAt(first, others, i), request, others[i])
  }

  /** Attempt `i` is refused and waits until its tickets are woken. */
  ghost predicate Refused(first: World, request: Request, others: seq<World>, i: nat)
    requires i < |others|
  {
    Fails(WorldAt(first, others, i), request) && GoesOn(WorldAt(first, others, i), request, others[i])
  }

  ghost predicate RefusedFirst(first: World, request: Request, others: seq<World>, n: nat)
    requires n <= |others|
  {
    forall k :: 0 <= k < n ==> Refused(first, request, others, k)
  }

  lemma RefusedOneMore(first: World, request: Request, others: seq<World>, n: nat)
    requires n < |others| && Waits(first, request, others)
    requires RefusedFirst(first, request, others, n) && Fails(WorldAt(first, others, n), request)
    ensures RefusedFirst(first, request, others, n + 1)
  {
  }

  lemma WaitAt(first: World, request: Request, others: seq<World>, i: nat)
    requires Waits(first, request, others) && i < |others|
    ensures Fails(WorldAt(first, others, i), request) ==> GoesOn(WorldAt(first, others, i), request, others[i])
  {
  }

  /** What a call leaves behind after so many attempts. */
  function Outcome(w: World, request: Request): World
    requires request.ReserveFlow? ==> MayReserve(w.flows, request.source, request.destination)
  {
    match request
    case ReserveFlow(s, d) => w.(flows := w.flows[d := s])
    case ReleaseFlow(d) => NotifyBoth(w.(flows := w.flows - {d}), ReleaseResponse(w.flows, d))
  }

  /** A refusal is a run of the events above: the caller joins the queues of what it lacked. */
  lemma RefusalIsRun(w: World, source: Resource, destination: Resource)
    requires !MayReserve(w.flows, source, destination)
    ensures var lacksSource := source in w.flows;
            var lacksDestination := destination in w.flows || HasReader(w.flows, destination);
            AfterRefusal(w, ReserveFlow(source, destination))
            == Happen(w, (if lacksSource then [Joining(source)] else [])
                         + (if lacksDestination then [Joining(destination)] else []))
  {
    assert [] + [Joining(destination)] == [Joining(destination)] && [Joining(source)] + [] == [Joining(source)];
    HappenOne(w, Joining(source), []);
    HappenOne(w, Joining(destination), []);
    HappenOne(w, Joining(source), [Joining(destination)]);
    HappenOne(Enqueue(w, source), Joining(destination), []);
  }

  /** And so are a reservation and a release, which moves the table and wakes for what it reports. */
  lemma ReservationIsRun(w: World, source: Resource, destination: Resource)
    requires MayReserve(w.flows, source, destination)
    ensures Outcome(w, ReserveFlow(source, destination)) == Happen(w, [Moving(ReserveFlow(source, destination))])
  {
    HappenOne(w, Moving(ReserveFlow(source, destination)), []);
  }

  lemma ReleaseIsRun(w: World, destination: Resource)
    ensures var response := ReleaseResponse(w.flows, destination);
            Outcome(w, ReleaseFlow(destination))
            == Happen(w, [Moving(ReleaseFlow(destination))]
                         + ([Waking(response.source)] + [Waking(response.destination)]))
  {
    var response := ReleaseResponse(w.flows, destination);
    var moved := w.(flows := w.flows - {destination});
    HappenOne(w, Moving(ReleaseFlow(destination)), [Waking(response.source)] + [Waking(response.destination)]);
    HappenOne(moved, Waking(response.source), [Waking(response.destination)]);
    HappenOne(Notify(moved, response.source), Waking(response.destination), []);
  }

  lemma HappenOne(w: World, event: Event, rest: seq<Event>)
    ensures Happen(w, [event] + rest) == Happen(After(w, event), rest)
    ensures Happen(w, []) == w
    ensures rest == [] ==> [event] + rest == [event]
  {
    assert ([event] + rest)[1..] == rest;
  }

  class WaitingQueueService {
    const inner: SequencerService
    const maxRetries: u32
    var waiting: Queues
    var nextTicket: nat
    ghost var joined: Queues
    ghost var woken: Queues

    ghost function Now(): World
      reads this, inner
    {
      World(inner.flows, waiting, nextTicket, joined, woken)
    }

    ghost predicate Valid()
      reads this, inner
    {
      Sound(Now())
    }

    constructor (inner: SequencerService, maxRetries: Option<u32>)
      ensures Valid() && this.inner == inner
      ensures this.maxRetries == if maxRetries.Some? then maxRetries.value else 0
      ensures Now() == World(inner.flows, map[], 0, map[], map[])
    {
      this.inner := inner;
      this.maxRetries := if maxRetries.Some? then maxRetries.value else 0;
      waiting, joined, woken := map[], map[], map[];
      nextTicket := 0;
    }

    /** Appends a new ticket to one queue. */
    method JoinWaitingQueue(r: Resource) returns (ticket: Ticket)
      requires Valid()
      modifies this
      ensures Valid() && Extends(old(Now()), Now())
      ensures Now() == Enqueue(old(Now()), r)
      ensures ticket == old(nextTicket) && forall q :: ticket !in At(old(joined), q)
    {
      ghost var before := Now();
      EnqueueIsSound(before, r);
      ticket := nextTicket;
      nextTicket := nextTicket + 1;
      if r in waiting {
        waiting := waiting[r := waiting[r] + [ticket]];
      } else {
        waiting := waiting[r := [ticket]];
        assert [] + [ticket] == [ticket];
      }
      assert waiting == before.waiting[r := At(before.waiting, r) + [ticket]];
      joined := joined[r := At(joined, r) + [ticket]];
      assert Now() == Enqueue(before, r);
    }

    /** Wakes the longest-waiting ticket of one queue, if there is a resource and a ticket. */
    method NotifyWaitingQueue(resource: Option<Resource>)
      requires Valid()
      modifies this
      ensures Valid() && Extends(old(Now()), Now())
      ensures Now() == Notify(old(Now()), resource)
    {
      NotifyIsSound(Now(), resource);
      if resource.Some? && resource.value in waiting && waiting[resource.value] != [] {
        var r := resource.value;
        woken := woken[r := At(woken, r) + [waiting[r][0]]];
        waiting := waiting[r := waiting[r][1..]];
      }
    }

    method NotifyReleased(response: Response)
      requires Valid() && response.FlowReleased?
      modifies this
      ensures Valid() && Extends(old(Now()), Now())
      ensures Now() == NotifyBoth(old(Now()), response)
      ensures forall q :: At(woken, q) == At(old(woken), q) + Front(At(old(waiting), q), Reports(response, q))
      ensures Wakes(old(Now()), response, Now())
    {
      NotifyBothIsSound(Now(), response);
      ReleaseWakesHeads(Now(), response);
      NotifyWaitingQueue(response.source);
      NotifyWaitingQueue(response.destination);
    }

    /** Joins the queues of the resources an error names. */
    method JoinLacked(error: Error) returns (tickets: seq<Ticket>)
      requires Valid()
      modifies this
      ensures Valid() && Extends(old(Now()), Now())
      ensures Now() == EnqueueAll(old(Now()), error)
      ensures forall ticket :: ticket in tickets <==> old(nextTicket) <= ticket < nextTicket
    {
      EnqueueAllIsSound(Now(), error);
      tickets := [];
      match error
      case UnavailableSource(s) =>
        var rx := JoinWaitingQueue(s);
        tickets := [rx];
      case UnavailableDestination(d) =>
        var rx := JoinWaitingQueue(d);
        tickets := [rx];
      case UnavailableSourceAndDestination(s, d) =>
        var rx1 := JoinWaitingQueue(s);
        var rx2 := JoinWaitingQueue(d);
        tickets := [rx1, rx2];
      case ReachedMaxRetriesWaitingQueue =>
    }

    /** One attempt to reserve; on failure the caller stands in the queue of every resource it lacked. */
    method TryReserve(source: Resource, destination: Resource)
      returns (r: Result<Response, Error>, tickets: seq<Ticket>)
      requires Valid()
      modifies this, inner
      ensures Valid() && Extends(old(Now()), Now())
      ensures r.Ok? <==> MayReserve(old(inner.flows), source, destination)
      ensures r.Ok? ==> r.value == FlowReserved
                        && Now() == Outcome(old(Now()), ReserveFlow(source, destination))
      ensures r.Err? ==> Now() == AfterRefusal(old(Now()), ReserveFlow(source, destination))
      ensures forall ticket :: ticket in tickets <==> old(nextTicket) <= ticket < nextTicket
    {
      ghost var before := Now();
      r := inner.MakeFlow(source, destination);
      QueuesMindTheirOwn(before, inner.flows);
      tickets := [];
      if r.Err? {
        tickets := JoinLacked(r.error);
      }
    }

    /** The wait is over once all tickets are woken: the shared state is what the other tasks made of it. */
    method Resume(tickets: seq<Ticket>, world: World)
      requires Valid() && Sound(world) && Extends(Now(), world)
      requires forall ticket :: ticket in tickets ==> IsWoken(world, ticket)
      modifies this, inner
      ensures Valid() && Now() == world && Extends(old(Now()), Now())
    {
      inner.flows := world.flows;
      waiting, nextTicket, joined, woken := world.waiting, world.nextTicket, world.joined, world.woken;
    }

    /** A call tries the sequencer at most `maxRetries + 1` times, goes on after a refusal only once it has been woken
        from every queue it joined, changes the table only by the one attempt that succeeds, and never waits to
        release. */
    method Call(request: Request, others: seq<World>) returns (r: Result<Response, Error>, attempts: nat)
      requires Valid()
      requires |others| == (if maxRetries == 0xFFFF_FFFF then 0 else maxRetries + 1) && Waits(Now(), request, others)
      modifies this, inner
      ensures Valid() && Extends(old(Now()), Now())
      ensures attempts <= |others|
      ensures 0 < attempts ==> RefusedFirst(old(Now()), request, others, attempts - 1)
      ensures r.Ok? ==>
                && 0 < attempts
                && !Fails(WorldAt(old(Now()), others, attempts - 1), request)
                && Now() == Outcome(WorldAt(old(Now()), others, attempts - 1), request)
      ensures r.Err? ==>
                && r.error == ReachedMaxRetriesWaitingQueue
                && attempts == (if maxRetries == 0xFFFF_FFFF then 0 else maxRetries + 1)
                && RefusedFirst(old(Now()), request, others, attempts)
                && Now() == WorldAt(old(Now()), others, attempts)
      ensures r.Ok? && request.ReserveFlow? ==> r.value == FlowReserved
      ensures request.ReleaseFlow? && maxRetries < 0xFFFF_FFFF ==>
                && attempts == 1 && r == Ok(ReleaseResponse(old(inner.flows), request.destination))
                && inner.flows == old(inner.flows) - {request.destination}
                && (forall q :: At(woken, q)
                      == At(old(woken), q) + Front(At(old(waiting), q), Reports(r.value, q)))
                && Wakes(old(Now()), r.value, Now())
      ensures maxRetries == 0xFFFF_FFFF ==> attempts == 0 && r.Err? && Now() == old(Now())
    {
      attempts := 0;
      ghost var first := Now();
      for i := 0 to Tries(maxRetries)
        invariant attempts == i
        invariant Valid() && Extends(first, Now())
        invariant i > 0 ==> request.ReserveFlow?
        invariant Now() == WorldAt(first, others, i)
        invariant RefusedFirst(first, request, others, i)
      {
        attempts := i + 1;
        WaitAt(first, request, others, i);
        match request
        case ReserveFlow(source, destination) =>
          var outcome := TryAndWait(source, destination, others[i], first);
          if outcome.Ok? {
            return outcome, attempts;
          }
          RefusedOneMore(first, request, others, i);
        case ReleaseFlow(destination) =>
          var released := Release(destination, first);
          return Ok(released), attempts;
      }
      return Err(ReachedMaxRetriesWaitingQueue), attempts;
    }

    /** One attempt and, if it is refused, the wait for its tickets. */
    method TryAndWait(source: Resource, destination: Resource, world: World, ghost first: World)
      returns (r: Result<Response, Error>)
      requires Valid() && Extends(first, Now())
      requires Fails(Now(), ReserveFlow(source, destination)) ==> GoesOn(Now(), ReserveFlow(source, destination), world)
      modifies this, inner
      ensures Valid() && Extends(first, Now())
      ensures r.Ok? <==> !Fails(old(Now()), ReserveFlow(source, destination))
      ensures r.Ok? ==> r.value == FlowReserved && Now() == Outcome(old(Now()), ReserveFlow(source, destination))
      ensures r.Err? ==> Now() == world
    {
      ghost var before := Now();
      var tickets;
      r, tickets := TryReserve(source, destination);
      if r.Err? {
        ghost var refused := Now();
        Resume(tickets, world);
        ExtendsFurther(before, refused, Now());
      }
      ExtendsFurther(first, before, Now());
    }

    method Release(destination: Resource, ghost first: World) returns (released: Response)
      requires Valid() && Extends(first, Now())
      modifies this, inner
      ensures Valid() && Extends(first, Now())
      ensures Now() == Outcome(old(Now()), ReleaseFlow(destination))
      ensures released == ReleaseResponse(old(inner.flows), destination)
      ensures inner.flows == old(inner.flows) - {destination}
      ensures forall q :: At(woken, q) == At(old(woken), q) + Front(At(old(waiting), q), Reports(released, q))
      ensures Wakes(old(Now()), released, Now())
    {
      ghost var before := Now();
      released := inner.DropFlow(destination);
      QueuesMindTheirOwn(before, inner.flows);
      ghost var dropped := Now();
      NotifyReleased(released);
      ExtendsFurther(before, dropped, Now());
      ExtendsFurther(first, before, Now());
    }
  }
}

// Runs of whole calls on one endpoint. The view is what the calls do to the client record and
// the disconnect queue; the methods at the end show that an endpoint follows it.

module EndpointRuns {
  import opened Sequences
  import opened BitWords
  import opened EndpointCalls

  datatype View = View(registered: set<nat>, queue: seq<nat>)

  datatype Call =
    | Accepts(fds: set<nat>)
    | WaitsFor(events: seq<Event>)
    | ClosesHungups
    | Disconnects(fd: ULong)
    | DisconnectsAll

  function Do(v: View, call: Call): View {
    match call
    case Accepts(fds) => v.(registered := v.registered + fds)
    case WaitsFor(events) => v.(queue := HangUps(events) + v.queue)
    case ClosesHungups => View(v.registered - Elements(v.queue), [])
    case Disconnects(fd) => v.(registered := v.registered - {fd as nat})
    case DisconnectsAll => View({}, [])
  }

  // Events name clients in the selector; a queued client is left to ClosesHungups.
  ghost predicate Proper(v: View, call: Call) {
    match call
    case WaitsFor(events) => forall e :: e in events ==> e.fd in v.registered
    case Disconnects(fd) => fd !in v.queue
    case _ => true
  }

  ghost predicate ProperRun(v: View, calls: seq<Call>)
    decreases |calls|
  {
    calls == [] || (Proper(v, calls[0]) && ProperRun(Do(v, calls[0]), calls[1..]))
  }

  function AfterCalls(v: View, calls: seq<Call>): View
    decreases |calls|
  {
    if calls == [] then v else AfterCalls(Do(v, calls[0]), calls[1..])
  }

  // Over every such run, only connected clients are ever queued for disconnection.
  lemma {:induction false} QueueStaysRegistered(v: View, calls: seq<Call>)
    requires ProperRun(v, calls) && Elements(v.queue) <= v.registered
    ensures var end := AfterCalls(v, calls); Elements(end.queue) <= end.registered
    decreases |calls|
  {
    if calls != [] {
      var next := Do(v, calls[0]);
      forall fd: nat | fd in next.queue ensures fd in next.registered {
        if calls[0].WaitsFor? && fd in HangUps(calls[0].events) {
          HangUpsAreEvents(calls[0].events, fd);
        }
      }
      QueueStaysRegistered(next, calls[1..]);
    }
  }

  // ---- An endpoint follows the view ----

  ghost predicate Shows(e: Endpoint, v: View)
    reads e, e.clients, e.clients.data, e.queue
  {
    e.Valid() && e.Registered() == v.registered && e.queue.Contents() == v.queue
  }

  method CallAccept(e: Endpoint, newFds: array<int>, newFdsSize: nat, arrivals: seq<Option<ULong>>, ghost v: View)
      returns (count: nat)
    requires Shows(e, v) && newFdsSize <= newFds.Length
    requires |arrivals| >= newFdsSize || None in arrivals
    modifies e`open, e`selector, e.clients, e.clients.data, newFds
    ensures count <= |arrivals| && Shows(e, Do(v, Accepts(Accepted(arrivals, count))))
  {
    count := e.Accept(newFds, newFdsSize, arrivals);
  }

  method CallWaitEvent(e: Endpoint, socketFds: array<int>, eventFlags: array<nat>, events: seq<Event>, ghost v: View)
      returns (count: int)
    requires Shows(e, v) && socketFds != eventFlags as object
    requires |events| <= socketFds.Length && |events| <= eventFlags.Length
    modifies e.queue, socketFds, eventFlags
    ensures count == |events| && Shows(e, Do(v, WaitsFor(events)))
  {
    ghost var from, before := [], e.queue.Contents();
    count, from := e.WaitEvent(socketFds, eventFlags, Some(events));
    assert e.queue.Contents() == HangUps(events) + before && e.Registered() == v.registered;
  }

  method CallCloseHungups(e: Endpoint, ghost v: View) returns (count: nat)
    requires Shows(e, v)
    modifies e, e.clients, e.clients.data, e.queue
    ensures count == |v.queue| && Shows(e, Do(v, ClosesHungups))
  {
    count := e.CloseHungups();
  }

  method CallDisconnectClient(e: Endpoint, fd: ULong, ghost v: View) returns (status: int)
    requires Shows(e, v)
    modifies e, e.clients, e.clients.data
    ensures Shows(e, Do(v, Disconnects(fd)))
  {
    status := e.DisconnectClient(fd);
  }

  method CallDisconnectAllClients(e: Endpoint, ghost v: View)
    requires Shows(e, v)
    modifies e, e.clients, e.clients.data, e.queue
    ensures Shows(e, Do(v, DisconnectsAll))
  {
    ghost var closed := e.DisconnectAllClients();
  }
}

// The simple form that both thread pools refine: a first-in first-out dispatcher.

module Dispatcher {

  datatype State<J> = State(posted: seq<J>, dispatched: nat, running: multiset<J>, finished: multiset<J>)

  datatype Event<J> = Post(job: J) | Dispatch | Complete(job: J) | Silent

  function Init<J>(): State<J> {
    State([], 0, multiset{}, multiset{})
  }

  // Dispatch always takes the oldest job that has not been dispatched.
  ghost predicate Next<J>(d: State<J>, e: Event<J>, d': State<J>) {
    match e
    case Post(job) => d' == d.(posted := d.posted + [job])
    case Dispatch =>
      d.dispatched < |d.posted|
      && d' == d.(dispatched := d.dispatched + 1, running := d.running + multiset{d.posted[d.dispatched]})
    case Complete(job) =>
      job in d.running
      && d' == d.(running := d.running - multiset{job}, finished := d.finished + multiset{job})
    case Silent => d' == d
  }

  function Pending<J>(d: State<J>): seq<J>
    requires d.dispatched <= |d.posted|
  {
    d.posted[d.dispatched..]
  }

  // Every posted job is in exactly one place.
  ghost predicate Conserves<J>(d: State<J>) {
    d.dispatched <= |d.posted|
    && multiset(d.posted[..d.dispatched]) == d.running + d.finished
  }

  lemma NextConserves<J>(d: State<J>, e: Event<J>, d': State<J>)
    requires Conserves(d) && Next(d, e, d')
    ensures Conserves(d')
  {
    match e
    case Post(job) => assert d'.posted[..d.dispatched] == d.posted[..d.dispatched];
    case Dispatch =>
      assert d.posted[..d'.dispatched] == d.posted[..d.dispatched] + [d.posted[d.dispatched]];
    case Complete(_) =>
    case Silent =>
  }

  lemma ConservesAll<J>(d: State<J>)
    requires Conserves(d)
    ensures multiset(d.posted) == multiset(Pending(d)) + d.running + d.finished
  {
    assert d.posted == d.posted[..d.dispatched] + d.posted[d.dispatched..];
  }

  ghost predicate IsTrace<J(!new)>(d: State<J>, events: seq<Event<J>>, end: State<J>)
    decreases |events|
  {
    if events == [] then d == end
    else exists next :: Next(d, events[0], next) && IsTrace(next, events[1..], end)
  }

  lemma {:induction false} TraceConserves<J(!new)>(d: State<J>, events: seq<Event<J>>, end: State<J>)
    requires Conserves(d) && IsTrace(d, events, end)
    ensures Conserves(end)
    decreases |events|
  {
    if events != [] {
      var next :| Next(d, events[0], next) && IsTrace(next, events[1..], end);
      NextConserves(d, events[0], next);
      TraceConserves(next, events[1..], end);
    }
  }
}

// From epoll to the event handler: the loop that posts events to the worker pool, and what
// the handler has seen when the pool has been joined.

module EventDelivery {
  import opened Sequences
  import opened EventPacking
  import opened Pool
  import opened PoolQueue
  import opened PoolShutdown
  import BitWords
  import PoolCalls
  import PoolStop
  import RingQueue

  // The job posted for an event: the handler and its packed argument.
  function EventJob(fn: Word, e: Event): Job { [fn, Pack(e)] }

  function EventJobs(fn: Word, events: seq<Event>): seq<Job> {
    seq(|events|, i requires 0 <= i < |events| => EventJob(fn, events[i]))
  }

  // Jobs of two words, whose second is a packed event.
  predicate EventLike(jobs: seq<Job>) {
    forall i :: 0 <= i < |jobs| ==> |jobs[i]| == 2 && jobs[i][1] < BitWords.ULONG_LIMIT
  }

  // The events the handler sees when these jobs are run.
  function Seen(jobs: seq<Job>): seq<Event>
    requires EventLike(jobs)
  {
    seq(|jobs|, i requires 0 <= i < |jobs| => Unpack(jobs[i][1]))
  }

  // One return of endpoint_wait_event, with the value of `stop` that is read after it.
  datatype Wait = Wait(count: int, event: Event, stop: bool)

  predicate Ends(w: Wait) { w.count <= -1 || w.stop }

  // The events that arrive before the first wait that ends the loop.
  function Received(waits: seq<Wait>): seq<Event> {
    if waits == [] || Ends(waits[0]) then []
    else (if waits[0].count > 0 then [waits[0].event] else []) + Received(waits[1..])
  }

  // The loop goes on while waits return more than -1 and `stop` is not set.
  lemma {:induction false} ReceivedSplits(a: seq<Wait>, b: seq<Wait>)
    requires forall i :: 0 <= i < |a| ==> a[i].count > -1 && !a[i].stop
    ensures Received(a + b) == Received(a) + Received(b)
    decreases |a|
  {
    if a == [] {
      assert a + b == b;
    } else {
      assert (a + b)[1..] == a[1..] + b;
      ReceivedSplits(a[1..], b);
    }
  }

  lemma ReceivedOne(w: Wait)
    requires w.count > -1 && !w.stop
    ensures Received([w]) == if w.count > 0 then [w.event] else []
  {
    assert [w][1..] == [];
  }

  lemma {:induction false} NothingReceivedAfterEnd(w: Wait, b: seq<Wait>)
    requires w.count <= -1 || w.stop
    ensures Received([w] + b) == []
  {
  }

  // `from` are the positions of the waits that bring an event, and `events` those events.
  ghost predicate Brings(waits: seq<Wait>, from: seq<nat>, events: seq<Event>) {
    && |events| == |from|
    && (forall k :: 0 <= k < |from| ==> from[k] < |waits| && events[k] == waits[from[k]].event)
    && (forall k, l :: 0 <= k < l < |from| ==> from[k] < from[l])
    && (forall i :: 0 <= i < |waits| ==> (i in from <==> waits[i].count > 0))
  }

  lemma BringsNothing(waits: seq<Wait>, n: nat, earlier: seq<Wait>, from: seq<nat>, events: seq<Event>)
    requires |waits| == n + 1 && earlier == waits[..n] && Brings(earlier, from, events) && waits[n].count <= 0
    ensures Brings(waits, from, events)
  {
    assert forall i :: 0 <= i < n ==> earlier[i] == waits[i];
    assert n !in from;
  }

  lemma BringsOneMore(waits: seq<Wait>, n: nat, earlier: seq<Wait>, from: seq<nat>, events: seq<Event>)
    requires |waits| == n + 1 && earlier == waits[..n] && Brings(earlier, from, events) && waits[n].count > 0
    ensures Brings(waits, from + [n], events + [waits[n].event])
  {
    assert forall i :: 0 <= i < n ==> earlier[i] == waits[i];
    assert forall i :: i in from + [n] <==> i == n || i in from;
  }

  lemma {:induction false} ReceivedByIndex(waits: seq<Wait>) returns (from: seq<nat>)
    requires forall i :: 0 <= i < |waits| ==> waits[i].count > -1 && !waits[i].stop
    ensures Brings(waits, from, Received(waits))
    decreases |waits|
  {
    from := [];
    if waits != [] {
      var n, earlier := |waits| - 1, waits[..|waits| - 1];
      from := ReceivedByIndex(earlier);
      assert waits == earlier + [waits[n]];
      ReceivedSplits(earlier, [waits[n]]);
      ReceivedOne(waits[n]);
      if waits[n].count > 0 {
        BringsOneMore(waits, n, earlier, from, Received(earlier));
        from := from + [n];
      } else {
        BringsNothing(waits, n, earlier, from, Received(earlier));
        assert Received(earlier) + [] == Received(earlier);
      }
    }
  }

  // What follows the first wait that ends the loop does not matter.
  lemma {:induction false} ReceivedUpTo(waits: seq<Wait>, last: nat)
    requires last <= |waits| && forall i :: 0 <= i < last ==> waits[i].count > -1 && !waits[i].stop
    requires last < |waits| ==> waits[last].count <= -1 || waits[last].stop
    ensures Received(waits) == Received(waits[..last])
  {
    assert waits == waits[..last] + waits[last..];
    ReceivedSplits(waits[..last], waits[last..]);
    if last < |waits| {
      assert waits[last..] == [waits[last]] + waits[last + 1..];
      NothingReceivedAfterEnd(waits[last], waits[last + 1..]);
    }
    assert Received(waits[..last]) + [] == Received(waits[..last]);
  }

  // w_post, with an event for its argument.
  method PostEvent(q: RingQueue.Queue<Word>, fn: Word, e: Event, ghost jobs: seq<Job>, ghost events: seq<Event>)
    requires HoldsJobs(q, jobs + EventJobs(fn, events)) && q.size + 1 < RingQueue.MAX_CAPACITY
    modifies q, q.data
    ensures HoldsJobs(q, jobs + EventJobs(fn, events + [e])) && q.size == old(q.size) + 2
    ensures q.data == old(q.data) || fresh(q.data)
  {
    var arg := Pack(e);
    QueueJob(q, fn, arg, jobs + EventJobs(fn, events));
    assert EventJobs(fn, events + [e]) == EventJobs(fn, events) + [EventJob(fn, e)];
    assert jobs + EventJobs(fn, events + [e]) == jobs + EventJobs(fn, events) + [[fn, arg]];
  }

  // None of the first waits ends the loop.
  predicate GoesOn(waits: seq<Wait>, n: nat) {
    n <= |waits| && forall i :: 0 <= i < n ==> waits[i].count > -1 && !waits[i].stop
  }

  lemma ReceivedNext(waits: seq<Wait>, n: nat)
    requires n < |waits| && GoesOn(waits, n + 1)
    ensures Received(waits[..n + 1])
         == if waits[n].count > 0 then Received(waits[..n]) + [waits[n].event] else Received(waits[..n])
  {
    assert waits[..n + 1] == waits[..n] + [waits[n]];
    ReceivedSplits(waits[..n], [waits[n]]);
    ReceivedOne(waits[n]);
  }

  // One turn of the loop: an event is posted when there is one.
  method HandleWait(q: RingQueue.Queue<Word>, fn: Word, w: Wait, ghost jobs: seq<Job>, ghost events: seq<Event>)
    requires HoldsJobs(q, jobs + EventJobs(fn, events)) && q.size + 1 < RingQueue.MAX_CAPACITY
    modifies q, q.data
    ensures HoldsJobs(q, jobs + EventJobs(fn, if w.count > 0 then events + [w.event] else events))
    ensures q.size <= old(q.size) + 2 && (q.data == old(q.data) || fresh(q.data))
  {
    if w.count > 0 { PostEvent(q, fn, w.event, jobs, events); }
  }

  // The loop that posts one job for each event. `waits` is what endpoint_wait_event returns,
  // call by call, up to the last call made; `calls` is what w_post is called with. The loop ends
  // at wait `last`, the first that returns -1 or less or finds `stop` set, and `from` are the
  // waits before it that return an event: one call each, in order.
  method ClientEventProcessor(q: RingQueue.Queue<Word>, fn: Word, waits: seq<Wait>, ghost jobs: seq<Job>)
      returns (ghost calls: seq<Job>, ghost last: nat, ghost from: seq<nat>)
    requires HoldsJobs(q, jobs) && q.size + 2 * |waits| < RingQueue.MAX_CAPACITY
    modifies q, q.data
    ensures calls == EventJobs(fn, Received(waits)) && HoldsJobs(q, jobs + calls)
    ensures last <= |waits| && forall i :: 0 <= i < last ==> waits[i].count > -1 && !waits[i].stop
    ensures last < |waits| ==> waits[last].count <= -1 || waits[last].stop
    ensures |calls| == |from| && forall k, l :: 0 <= k < l < |from| ==> from[k] < from[l]
    ensures forall k :: 0 <= k < |from| ==> from[k] < last && calls[k] == [fn, Pack(waits[from[k]].event)]
    ensures forall i :: 0 <= i < last ==> (i in from <==> waits[i].count > 0)
  {
    last := PostAll(q, fn, waits, jobs);
    ReceivedUpTo(waits, last);
    from := ReceivedByIndex(waits[..last]);
    calls := EventJobs(fn, Received(waits));
    assert forall i :: 0 <= i < last ==> waits[..last][i] == waits[i];
  }

  method PostAll(q: RingQueue.Queue<Word>, fn: Word, waits: seq<Wait>, ghost jobs: seq<Job>) returns (last: nat)
    requires HoldsJobs(q, jobs) && q.size + 2 * |waits| < RingQueue.MAX_CAPACITY
    modifies q, q.data
    ensures GoesOn(waits, last) && HoldsJobs(q, jobs + EventJobs(fn, Received(waits[..last])))
    ensures last < |waits| ==> waits[last].count <= -1 || waits[last].stop
  {
    last := 0;
    assert jobs + EventJobs(fn, Received(waits[..0])) == jobs;
    while last < |waits| && waits[last].count > -1 && !waits[last].stop
      invariant GoesOn(waits, last) && HoldsJobs(q, jobs + EventJobs(fn, Received(waits[..last])))
      invariant q.size + 2 * (|waits| - last) < RingQueue.MAX_CAPACITY
      invariant q.data == old(q.data) || fresh(q.data)
    {
      ReceivedNext(waits, last);
      HandleWait(q, fn, waits[last], jobs, Received(waits[..last]));
      last := last + 1;
    }
  }

  // ---- What the handler has seen ----

  lemma SeenWithout(jobs: seq<Job>, k: nat)
    requires EventLike(jobs) && k < |jobs|
    ensures var rest := jobs[..k] + jobs[k + 1..];
      && multiset(rest) == multiset(jobs) - multiset{jobs[k]} && EventLike(rest)
      && multiset(Seen(jobs)) == multiset(Seen(rest)) + multiset{Unpack(jobs[k][1])}
  {
    var rest, seen := jobs[..k] + jobs[k + 1..], Seen(jobs);
    assert jobs == jobs[..k] + [jobs[k]] + jobs[k + 1..];
    assert seen == seen[..k] + [seen[k]] + seen[k + 1..];
    assert Seen(rest) == seen[..k] + seen[k + 1..];
  }

  // Without one job that both lists hold, what is left is the same jobs, and sees the same.
  lemma SeenOneLess(a: seq<Job>, b: seq<Job>, k: nat)
    requires multiset(a) == multiset(b) && EventLike(a) && EventLike(b) && a != [] && k < |b| && b[k] == a[0]
    ensures var restA, restB := a[..0] + a[1..], b[..k] + b[k + 1..];
      && EventLike(restA) && EventLike(restB) && multiset(restA) == multiset(restB)
      && (multiset(Seen(restA)) == multiset(Seen(restB)) ==> multiset(Seen(a)) == multiset(Seen(b)))
  {
    SeenWithout(a, 0);
    SeenWithout(b, k);
  }

  // The order in which jobs are run does not matter to the events seen.
  lemma {:induction false} SeenInAnyOrder(a: seq<Job>, b: seq<Job>)
    requires multiset(a) == multiset(b) && EventLike(a) && EventLike(b)
    ensures multiset(Seen(a)) == multiset(Seen(b))
    decreases |a|
  {
    if a == [] {
      assert |multiset(b)| == 0;
    } else {
      assert a[0] in multiset(b);
      var k :| 0 <= k < |b| && b[k] == a[0];
      SeenOneLess(a, b, k);
      SeenInAnyOrder(a[..0] + a[1..], b[..k] + b[k + 1..]);
    }
  }

  lemma PostedAreSeen(fn: Word, events: seq<Event>)
    ensures EventLike(EventJobs(fn, events)) && |Seen(EventJobs(fn, events))| == |events|
    ensures forall i :: 0 <= i < |events| ==>
      var e := Seen(EventJobs(fn, events))[i]; Survives(e) && (e == events[i] <==> Survives(events[i]))
  {
    forall i | 0 <= i < |events|
      ensures var w := EventJobs(fn, events)[i][1];
        w < BitWords.ULONG_LIMIT && Survives(Unpack(w)) && (Unpack(w) == events[i] <==> Survives(events[i]))
    {
      UnpackOfPack(events[i]);
    }
  }

  // When the pool has completed, and in whatever order the jobs were run, the handler has seen
  // each posted event as often as it was posted: exactly when every event survives packing,
  // as it does when its client is a file descriptor.
  lemma EventsDelivered(s: State, fn: Word, events: seq<Event>, ran: seq<Job>)
    requires Complete(s) && s.finished == multiset(ran)
    requires multiset(s.posted) == multiset(EventJobs(fn, events))
    ensures EventLike(ran) && forall i :: 0 <= i < |ran| ==> ran[i][0] == fn
    ensures multiset(Seen(ran)) == multiset(events) <==> forall i :: 0 <= i < |events| ==> Survives(events[i])
  {
    var jobs := EventJobs(fn, events);
    PostedAreSeen(fn, events);
    forall i | 0 <= i < |ran| ensures |ran[i]| == 2 && ran[i][0] == fn && ran[i][1] < BitWords.ULONG_LIMIT {
      assert ran[i] in multiset(ran) && ran[i] in multiset(jobs);
    }
    SeenInAnyOrder(ran, jobs);
    if i :| 0 <= i < |events| && !Survives(events[i]) {
      assert events[i] in multiset(events) && events[i] !in Seen(jobs);
    } else {
      assert Seen(jobs) == events;
    }
  }

  // A whole program: after `run`, w_join is begun in a safe state, nothing but a spurious wakeup
  // can continue the run after `more`, and `ran` lists the jobs that were run.
  ghost predicate RunsOut(n: nat, m: nat, run: seq<Action>, more: seq<Action>, ran: seq<Job>) {
    && IsRun(UNIX_WORKERS, Init(n, m), run)
    && var s := After(UNIX_WORKERS, Init(n, m), run);
       && !s.stop && Enabled(UNIX_WORKERS, s, WriteStop) && Orderly(s, WriteStop) && StopSafe(s)
       && OrderlyRun(UNIX_WORKERS, Apply(UNIX_WORKERS, s, WriteStop), more)
       && var end := After(UNIX_WORKERS, Apply(UNIX_WORKERS, s, WriteStop), more);
          && (forall a :: Enabled(UNIX_WORKERS, end, a) && Orderly(end, a) ==> a.SpuriousWakeup?)
          && end.finished == multiset(ran)
  }

  // Whatever threads called w_post with events for file descriptors, and in whatever order,
  // the handler has seen those events.
  lemma {:induction false} EventsDeliveredAfterJoin(n: nat, m: nat, run: seq<Action>, more: seq<Action>,
      ran: seq<Job>, fn: Word, events: seq<Event>)
    requires RunsOut(n, m, run, more, ran) && multiset(PoolCalls.Calls(run)) == multiset(EventJobs(fn, events))
    requires forall i :: 0 <= i < |events| ==> events[i].client >= 0
    ensures EventLike(ran) && multiset(Seen(ran)) == multiset(events)
    ensures forall i :: 0 <= i < |ran| ==> ran[i][0] == fn
  {
    var s := After(UNIX_WORKERS, Init(n, m), run);
    var t := Apply(UNIX_WORKERS, s, WriteStop);
    PoolStop.ShutdownTerminates(UNIX_WORKERS, n, m, run, more);
    PoolCalls.CallsArePosted(UNIX_WORKERS, n, m, run);
    PoolCalls.NothingPostedAfterStop(UNIX_WORKERS, t, more);
    EventsDelivered(After(UNIX_WORKERS, t, more), fn, events, ran);
  }

  // One thread posts, and its calls are those that ClientEventProcessor makes: the handler has
  // seen what endpoint_wait_event returned to it.
  lemma {:induction false} LoopEventsDelivered(n: nat, run: seq<Action>, more: seq<Action>, ran: seq<Job>,
      fn: Word, waits: seq<Wait>)
    requires RunsOut(n, 1, run, more, ran) && PoolCalls.Calls(run) == EventJobs(fn, Received(waits))
    requires forall i :: 0 <= i < |waits| ==> waits[i].event.client >= 0
    ensures After(UNIX_WORKERS, Init(n, 1), run).posted == EventJobs(fn, Received(waits))
    ensures EventLike(ran) && multiset(Seen(ran)) == multiset(Received(waits))
    ensures forall i :: 0 <= i < |ran| ==> ran[i][0] == fn
  {
    PostersAreIdle(n, run, more, ran);
    PoolCalls.CallsArePostedInOrder(UNIX_WORKERS, n, run);
    ReceivedHaveClients(waits);
    EventsDeliveredAfterJoin(n, 1, run, more, ran, fn, Received(waits));
  }

  lemma {:induction false} PostersAreIdle(n: nat, run: seq<Action>, more: seq<Action>, ran: seq<Job>)
    requires RunsOut(n, 1, run, more, ran)
    ensures IsRun(UNIX_WORKERS, Init(n, 1), run) && PostersIdle(After(UNIX_WORKERS, Init(n, 1), run))
  {
  }

  lemma {:induction false} ReceivedHaveClients(waits: seq<Wait>)
    requires forall i :: 0 <= i < |waits| ==> waits[i].event.client >= 0
    ensures forall i :: 0 <= i < |Received(waits)| ==> Received(waits)[i].client >= 0
  {
    if waits != [] {
      assert forall i :: 0 <= i < |waits[1..]| ==> waits[1..][i] == waits[i + 1];
      ReceivedHaveClients(waits[1..]);
    }
  }
}

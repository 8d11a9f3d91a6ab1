// The bookkeeping of an endpoint, one call at a time: the client set, the disconnect queue
// and, as ghost state, what the kernel holds for the client sockets.

module EndpointCalls {
  import opened Sequences
  import opened BitWords
  import opened BitSet
  import opened LinkedStack
  import Bits

  const EPOLLRDHUP: nat := 0x2000

  datatype Event = Event(fd: ULong, flags: nat)

  predicate HangsUp(e: Event) {
    Bits.And(e.flags, EPOLLRDHUP) != 0
  }

  // The clients reported as hung up, most recent first, as the queue holds them.
  function HangUps(events: seq<Event>): seq<ULong>
    decreases |events|
  {
    if events == [] then []
    else
      var last := events[|events| - 1];
      (if HangsUp(last) then [last.fd] else []) + HangUps(events[..|events| - 1])
  }

  lemma HangUpsNext(events: seq<Event>, i: nat)
    requires i < |events|
    ensures HangUps(events[..i + 1]) == (if HangsUp(events[i]) then [events[i].fd] else []) + HangUps(events[..i])
  {
    assert events[..i + 1][..i] == events[..i];
  }

  // The flag is bit 13 of the event's flags.
  lemma HangsUpIsBit(e: Event)
    ensures HangsUp(e) <==> Bits.Bit(e.flags, 13) == 1
  {
    assert Bits.Pow2(13) == EPOLLRDHUP by {
      assert Bits.Pow2(6) == 64 && Bits.Pow2(7) == 128;
      Bits.Pow2Sum(6, 7);
    }
    Bits.AndPow2(e.flags, 13);
  }

  // `from` are the positions of the events that hang up, latest first, and `fds` their clients.
  ghost predicate Marks(events: seq<Event>, from: seq<nat>, fds: seq<ULong>) {
    && |fds| == |from|
    && (forall k :: 0 <= k < |from| ==> from[k] < |events| && fds[k] == events[from[k]].fd)
    && (forall k, l :: 0 <= k < l < |from| ==> from[l] < from[k])
    && (forall i :: 0 <= i < |events| ==> (i in from <==> HangsUp(events[i])))
  }

  lemma MarksSame(events: seq<Event>, n: nat, earlier: seq<Event>, from: seq<nat>, fds: seq<ULong>)
    requires |events| == n + 1 && earlier == events[..n] && Marks(earlier, from, fds) && !HangsUp(events[n])
    ensures Marks(events, from, fds)
  {
    assert forall i :: 0 <= i < n ==> earlier[i] == events[i];
    assert n !in from;
  }

  lemma MarksOneMore(events: seq<Event>, n: nat, earlier: seq<Event>, from: seq<nat>, fds: seq<ULong>)
    requires |events| == n + 1 && earlier == events[..n] && Marks(earlier, from, fds) && HangsUp(events[n])
    ensures Marks(events, [n] + from, [events[n].fd] + fds)
  {
    assert forall i :: 0 <= i < n ==> earlier[i] == events[i];
    assert forall i :: i in [n] + from <==> i == n || i in from;
  }

  lemma {:induction false} HangUpsMarked(events: seq<Event>) returns (from: seq<nat>)
    ensures Marks(events, from, HangUps(events))
    decreases |events|
  {
    if events == [] {
      from := [];
    } else {
      var n, earlier := |events| - 1, events[..|events| - 1];
      from := HangUpsMarked(earlier);
      if HangsUp(events[n]) {
        MarksOneMore(events, n, earlier, from, HangUps(earlier));
        from := [n] + from;
        assert HangUps(events) == [events[n].fd] + HangUps(earlier);
      } else {
        MarksSame(events, n, earlier, from, HangUps(earlier));
        assert HangUps(events) == [] + HangUps(earlier) == HangUps(earlier);
      }
    }
  }

  // The hang-ups are those of exactly the events with the flag, the latest first.
  lemma {:induction false} HangUpsByIndex(events: seq<Event>) returns (from: seq<nat>)
    ensures |HangUps(events)| == |from|
    ensures forall k :: 0 <= k < |from| ==> from[k] < |events| && HangUps(events)[k] == events[from[k]].fd
    ensures forall k, l :: 0 <= k < l < |from| ==> from[l] < from[k]
    ensures forall i :: 0 <= i < |events| ==> (i in from <==> Bits.Bit(events[i].flags, 13) == 1)
  {
    from := HangUpsMarked(events);
    forall i | 0 <= i < |events| ensures HangsUp(events[i]) <==> Bits.Bit(events[i].flags, 13) == 1 {
      HangsUpIsBit(events[i]);
    }
  }

  lemma Regroup(fd: ULong, newer: seq<ULong>, older: seq<ULong>)
    ensures [fd] + (newer + older) == ([fd] + newer) + older
  {
  }

  function Elements(xs: seq<nat>): set<nat> {
    set x | x in xs
  }

  lemma ElementsNext(xs: seq<ULong>, n: nat)
    requires n < |xs|
    ensures Elements(xs[..n + 1]) == Elements(xs[..n]) + {xs[n] as nat}
  {
    assert xs[..n + 1] == xs[..n] + [xs[n]];
  }

  lemma {:induction false} HangUpsAreEvents(events: seq<Event>, fd: nat)
    requires fd in HangUps(events)
    ensures exists e :: e in events && e.fd == fd
    decreases |events|
  {
    var last := events[|events| - 1];
    if HangsUp(last) && fd == last.fd {
      assert last in events;
    } else {
      HangUpsAreEvents(events[..|events| - 1], fd);
    }
  }

  lemma {:induction false} QueueGrows(events: seq<Event>, before: seq<ULong>, registered: set<nat>)
    ensures Elements(before) <= registered && (forall e :: e in events ==> e.fd in registered) ==>
      Elements(HangUps(events) + before) <= registered
  {
    forall fd: ULong | fd in HangUps(events) ensures exists e :: e in events && e.fd == fd {
      HangUpsAreEvents(events, fd);
    }
  }

  ghost predicate Distinct(xs: seq<nat>) {
    forall i, j :: 0 <= i < j < |xs| ==> xs[i] != xs[j]
  }

  // One more name, among the clients or not.
  lemma NamesNext(names: set<nat>, fd: nat, clients: set<nat>)
    ensures |(names + {fd}) * clients| == |names * clients| + if fd in clients && fd !in names then 1 else 0
  {
    if fd in clients && fd !in names {
      assert (names + {fd}) * clients == names * clients + {fd};
    } else {
      assert (names + {fd}) * clients == names * clients;
    }
  }

  // Entries count the clients they name exactly when none is named twice and all are clients.
  lemma {:induction false} CountsClients(xs: seq<ULong>, clients: set<nat>)
    ensures |xs| >= |Elements(xs) * clients|
    ensures |xs| == |Elements(xs) * clients| <==> Distinct(xs) && Elements(xs) <= clients
    decreases |xs|
  {
    if xs == [] {
      assert Elements(xs) * clients == {};
    } else {
      var n := |xs| - 1;
      assert xs[..n + 1] == xs;
      CountsClients(xs[..n], clients);
      ElementsNext(xs, n);
      NamesNext(Elements(xs[..n]), xs[n], clients);
      DistinctNext(xs, n);
    }
  }

  lemma DistinctNext(xs: seq<ULong>, n: nat)
    requires |xs| == n + 1
    ensures Distinct(xs) <==> Distinct(xs[..n]) && xs[n] as nat !in Elements(xs[..n])
  {
    if Distinct(xs[..n]) && xs[n] !in xs[..n] {
      forall i, j | 0 <= i < j < |xs| ensures xs[i] != xs[j] {
        assert xs[i] == xs[..n][i] && (j < n ==> xs[j] == xs[..n][j]);
      }
    }
    if Distinct(xs) {
      forall i, j | 0 <= i < j < n ensures xs[..n][i] != xs[..n][j] {
        assert xs[i] != xs[j];
      }
    }
  }

  // A client queued twice is counted twice and closed once.
  lemma DuplicateIsOvercounted(fd: ULong)
    ensures !Distinct([fd, fd]) && |Elements([fd, fd]) * {fd as nat}| == 1 < |[fd, fd]|
  {
    assert [fd, fd][0] == [fd, fd][1];
    assert Elements([fd, fd]) * {fd as nat} == {fd as nat};
  }

  datatype Books = Books(registered: set<nat>, open: set<nat>, selector: set<nat>) {
    function With(fds: set<nat>): Books { Books(registered + fds, open + fds, selector + fds) }

    function Without(fds: set<nat>): Books { Books(registered - fds, open - fds, selector - fds) }
  }

  // One more accepted descriptor.
  lemma WithNext(before: Books, arrivals: seq<Option<ULong>>, count: nat)
    requires count < |arrivals| && arrivals[count].Some?
    ensures var accepted, fd := before.With(Accepted(arrivals, count)), arrivals[count].value as nat;
      accepted.With({fd}) == before.With(Accepted(arrivals, count + 1))
  {
  }

  lemma CountsClosed(entries: seq<ULong>, before: Books, after: Books)
    requires after.registered == before.registered - Elements(entries)
    requires after.open == before.open - Elements(entries)
    ensures |entries| == |before.registered - after.registered| <==>
      Distinct(entries) && Elements(entries) <= before.registered
    ensures |entries| == |before.open - after.open| <==> Distinct(entries) && Elements(entries) <= before.open
  {
    assert before.registered - after.registered == Elements(entries) * before.registered;
    assert before.open - after.open == Elements(entries) * before.open;
    CountsClients(entries, before.registered);
    CountsClients(entries, before.open);
  }

  // The descriptors among the first `count` results of accept.
  function Accepted(arrivals: seq<Option<ULong>>, count: nat): set<nat>
    requires count <= |arrivals|
  {
    if count == 0 then {}
    else Accepted(arrivals, count - 1)
         + (if arrivals[count - 1].Some? then {arrivals[count - 1].value} else {})
  }

  lemma {:induction false} AcceptedAre(arrivals: seq<Option<ULong>>, count: nat, fd: nat)
    requires count <= |arrivals|
    ensures fd in Accepted(arrivals, count) <==>
      exists i :: 0 <= i < count && arrivals[i].Some? && arrivals[i].value == fd
    decreases count
  {
    if count > 0 { AcceptedAre(arrivals, count - 1, fd); }
  }

  class Endpoint {
    const clients: BoolSet
    const queue: Stack<ULong>
    ghost var open: set<nat>        // client sockets the kernel has open
    ghost var selector: set<nat>    // client sockets in the selector epoll instance

    ghost predicate Valid()
      reads this, clients, queue
    {
      clients.Valid() && queue.Valid()
    }

    ghost function Registered(): set<nat>
      reads this, clients, clients.data
    {
      clients.Contents()
    }

    // Between calls the record, the kernel and the selector name the same clients.
    ghost predicate Agree()
      reads this, clients, clients.data
    {
      Registered() == open == selector
    }

    ghost predicate QueueRegistered()
      requires Valid()
      reads this, clients, clients.data, queue
    {
      Elements(queue.Contents()) <= Registered()
    }

    // The three sets of clients at one moment.
    ghost function Ledger(): Books
      reads this, clients, clients.data
    {
      Books(Registered(), open, selector)
    }

    constructor ()
      ensures Valid() && Agree() && open == {} && queue.Contents() == []
      ensures fresh(clients) && fresh(clients.data) && fresh(queue)
    {
      clients := new BoolSet();
      queue := new Stack();
      open, selector := {}, {};
    }

    method RegisterClient(fd: ULong)
      requires Valid()
      modifies clients, clients.data
      ensures Valid() && Registered() == old(Registered()) + {fd}
      ensures clients.data == old(clients.data) || fresh(clients.data)
    {
      clients.Set(fd, 1);
    }

    method DeregisterClient(fd: ULong)
      requires Valid()
      modifies clients, clients.data
      ensures Valid() && Registered() == old(Registered()) - {fd}
      ensures clients.data == old(clients.data) || fresh(clients.data)
    {
      clients.Set(fd, 0);
    }

    // The kernel's part of taking a client away: epoll_ctl, shutdown and close.
    ghost method KernelDrops(fd: nat)
      modifies this`open, this`selector
      ensures open == old(open) - {fd} && selector == old(selector) - {fd}
    {
      selector := selector - {fd};
      open := open - {fd};
      selector := selector - {fd};
    }

    // accept has just returned fd: record it and add it to the selector.
    method Admit(fd: ULong)
      requires Valid()
      modifies this`open, this`selector, clients, clients.data
      ensures clients.data == old(clients.data) || fresh(clients.data)
      ensures Valid() && Ledger() == old(Ledger()).With({fd as nat})
      ensures queue.Contents() == old(queue.Contents())
    {
      open := open + {fd};
      RegisterClient(fd);
      selector := selector + {fd};
    }

    // The first `count` arrivals are clients, and reported to the caller.
    ghost predicate TookIn(before: Books, newFds: seq<int>, arrivals: seq<Option<ULong>>, count: nat)
      reads this, clients, clients.data
    {
      && count <= |arrivals| && count <= |newFds| && Ledger() == before.With(Accepted(arrivals, count))
      && forall i :: 0 <= i < count ==> arrivals[i].Some? && newFds[i] == arrivals[i].value
    }

    // One turn of the loop of endpoint_accept.
    method TakeIn(newFds: array<int>, at: nat, arrivals: seq<Option<ULong>>, ghost before: Books)
      requires Valid() && at < newFds.Length && at < |arrivals| && arrivals[at].Some?
      requires TookIn(before, newFds[..], arrivals, at)
      modifies this`open, this`selector, clients, clients.data, newFds
      ensures Valid() && TookIn(before, newFds[..], arrivals, at + 1) && queue.Contents() == old(queue.Contents())
      ensures clients.data == old(clients.data) || fresh(clients.data)
    {
      Admit(arrivals[at].value);
      WithNext(before, arrivals, at);
      ghost var told := newFds[..];
      newFds[at] := arrivals[at].value;
      assert newFds[..] == told[at := arrivals[at].value];
    }

    // The loop of endpoint_accept.
    method TakeInAll(newFds: array<int>, newFdsSize: nat, arrivals: seq<Option<ULong>>, ghost before: Books)
        returns (count: nat)
      requires Valid() && newFdsSize <= newFds.Length && before == Ledger()
      requires |arrivals| >= newFdsSize || None in arrivals
      modifies this`open, this`selector, clients, clients.data, newFds
      ensures Valid() && queue.Contents() == old(queue.Contents())
      ensures clients.data == old(clients.data) || fresh(clients.data)
      ensures count <= newFdsSize && TookIn(before, newFds[..], arrivals, count)
      ensures count < newFdsSize ==> count < |arrivals| && arrivals[count].None?
    {
      count := 0;
      while count < newFdsSize
        invariant count <= newFdsSize && clients.Valid() && TookIn(before, newFds[..], arrivals, count)
        invariant clients.data == old(clients.data) || fresh(clients.data)
      {
        if arrivals[count].None? { break; }
        TakeIn(newFds, count, arrivals, before);
        count := count + 1;
      }
    }

    // `arrivals` holds what successive calls of accept return; None stands for -1.
    method Accept(newFds: array<int>, newFdsSize: nat, arrivals: seq<Option<ULong>>) returns (count: nat)
      requires Valid() && newFdsSize <= newFds.Length
      requires |arrivals| >= newFdsSize || None in arrivals
      modifies this`open, this`selector, clients, clients.data, newFds
      ensures Valid() && queue.Contents() == old(queue.Contents())
      ensures clients.data == old(clients.data) || fresh(clients.data)
      ensures count <= newFdsSize && count <= |arrivals|
      ensures count < newFdsSize ==> count < |arrivals| && arrivals[count].None?
      ensures forall i :: 0 <= i < count ==> arrivals[i].Some? && newFds[i] == arrivals[i].value
      ensures var accepted := Accepted(arrivals, count);
        && Registered() == old(Registered()) + accepted
        && open == old(open) + accepted && selector == old(selector) + accepted
      ensures old(Agree()) ==> Agree()
      ensures old(QueueRegistered()) ==> QueueRegistered()
      ensures forall fd: nat :: fd in Registered() <==>
        fd in old(Registered()) || exists i :: 0 <= i < count && arrivals[i].Some? && arrivals[i].value == fd
    {
      ghost var before := Ledger();
      count := TakeInAll(newFds, newFdsSize, arrivals, before);
      forall fd: nat ensures fd in Accepted(arrivals, count) <==>
        exists i :: 0 <= i < count && arrivals[i].Some? && arrivals[i].value == fd
      {
        AcceptedAre(arrivals, count, fd);
      }
    }

    // The first `count` events are reported to the caller, and their hang-ups queued.
    ghost predicate Reported(events: seq<Event>, fds: seq<int>, flags: seq<nat>, before: seq<ULong>, count: nat)
      requires Valid()
      reads this, clients, queue
    {
      && count <= |events| && count <= |fds| && count <= |flags|
      && queue.Contents() == HangUps(events[..count]) + before
      && forall k :: 0 <= k < count ==> fds[k] == events[k].fd && flags[k] == events[k].flags
    }

    // One turn of the loop of endpoint_wait_event.
    method Report(events: seq<Event>, i: nat, socketFds: array<int>, eventFlags: array<nat>, ghost before: seq<ULong>)
      requires Valid() && socketFds != eventFlags as object
      requires i < |events| <= socketFds.Length && |events| <= eventFlags.Length
      requires Reported(events, socketFds[..], eventFlags[..], before, i)
      modifies queue, socketFds, eventFlags
      ensures Valid() && Reported(events, socketFds[..], eventFlags[..], before, i + 1)
    {
      ghost var fds, flags := socketFds[..], eventFlags[..];
      socketFds[i] := events[i].fd;
      eventFlags[i] := events[i].flags;
      assert socketFds[..] == fds[i := events[i].fd] && eventFlags[..] == flags[i := events[i].flags];
      HangUpsNext(events, i);
      if HangsUp(events[i]) {
        queue.Push(events[i].fd);
        Regroup(events[i].fd, HangUps(events[..i]), before);
      }
    }

    // `reply` is what epoll_wait fills in; None stands for its -1. The entries that the queue
    // gains are those of the events `from`, latest first: exactly the ones with EPOLLRDHUP.
    method WaitEvent(socketFds: array<int>, eventFlags: array<nat>, reply: Option<seq<Event>>)
        returns (count: int, ghost from: seq<nat>)
      requires Valid() && socketFds != eventFlags as object
      requires reply.Some? ==> |reply.value| <= socketFds.Length && |reply.value| <= eventFlags.Length
      modifies queue, socketFds, eventFlags
      ensures Valid()
      ensures reply.None? ==> count == -1 && queue.Contents() == old(queue.Contents())
      ensures reply.Some? ==>
        && count == |reply.value|
        && queue.Contents() == HangUps(reply.value) + old(queue.Contents())
        && forall i :: 0 <= i < count ==> socketFds[i] == reply.value[i].fd && eventFlags[i] == reply.value[i].flags
      ensures reply.Some? ==>
        && |queue.Contents()| == |from| + |old(queue.Contents())|
        && queue.Contents()[|from|..] == old(queue.Contents())
        && (forall k :: 0 <= k < |from| ==>
              from[k] < |reply.value| && queue.Contents()[k] == reply.value[from[k]].fd)
        && (forall k, l :: 0 <= k < l < |from| ==> from[l] < from[k])
        && (forall i :: 0 <= i < |reply.value| ==> (i in from <==> Bits.Bit(reply.value[i].flags, 13) == 1))
      ensures old(QueueRegistered()) && (reply.Some? ==> forall e :: e in reply.value ==> e.fd in Registered()) ==>
        QueueRegistered()
    {
      from := [];
      if reply.None? {
        count := -1;
        return;
      }
      var events := reply.value;
      ghost var before := queue.Contents();
      count := ReportAll(events, socketFds, eventFlags);
      from := HangUpsByIndex(events);
      assert events[..|events|] == events;
      QueueGrows(events, before, Registered());
    }

    // The loop of endpoint_wait_event.
    method ReportAll(events: seq<Event>, socketFds: array<int>, eventFlags: array<nat>) returns (count: int)
      requires Valid() && socketFds != eventFlags as object
      requires |events| <= socketFds.Length && |events| <= eventFlags.Length
      modifies queue, socketFds, eventFlags
      ensures Valid() && count == |events|
      ensures Reported(events, socketFds[..], eventFlags[..], old(queue.Contents()), |events|)
    {
      count := |events|;
      ghost var before := queue.Contents();
      var i := 0;
      while i < count
        invariant 0 <= i <= count && Valid()
        invariant Reported(events, socketFds[..], eventFlags[..], before, i)
      {
        Report(events, i, socketFds, eventFlags, before);
        i := i + 1;
      }
    }

    method DisconnectClient(fd: ULong) returns (status: int)
      requires Valid()
      modifies this, clients, clients.data
      ensures Valid() && status == 0
      ensures clients.data == old(clients.data) || fresh(clients.data)
      ensures Registered() == old(Registered()) - {fd}
      ensures open == old(open) - {fd} && selector == old(selector) - {fd}
      ensures queue.Contents() == old(queue.Contents())
      ensures old(QueueRegistered()) ==> (QueueRegistered() <==> fd !in queue.Contents())
    {
      DeregisterClient(fd);
      KernelDrops(fd);
      status := 0;
    }

    // One turn of the loop of endpoint_close_hungups.
    method CloseOne(ghost before: Books, ghost gone: set<nat>)
      requires Valid() && queue.Contents() != [] && Ledger() == before.Without(gone)
      modifies this, clients, clients.data, queue
      ensures Valid() && Ledger() == before.Without(gone + {old(queue.Contents())[0] as nat})
      ensures queue.Contents() == old(queue.Contents())[1..]
      ensures clients.data == old(clients.data) || fresh(clients.data)
    {
      ghost var entries := queue.Contents();
      var fd := queue.Pop();
      assert entries == [fd] + queue.Contents();
      var _ := DisconnectClient(fd);
    }

    // The loop of endpoint_close_hungups.
    method CloseAll(ghost before: Books, ghost entries: seq<ULong>) returns (count: nat)
      requires Valid() && before == Ledger() && entries == queue.Contents()
      modifies this, clients, clients.data, queue
      ensures Valid() && queue.Contents() == [] && count == |entries| && Ledger() == before.Without(Elements(entries))
      ensures clients.data == old(clients.data) || fresh(clients.data)
    {
      count := 0;
      var empty := queue.IsEmpty();
      while !empty
        invariant Valid() && count <= |entries| && queue.Contents() == entries[count..]
        invariant empty <==> queue.Contents() == []
        invariant clients.data == old(clients.data) || fresh(clients.data)
        invariant Ledger() == before.Without(Elements(entries[..count]))
        decreases |entries| - count
      {
        CloseOne(before, Elements(entries[..count]));
        ElementsNext(entries, count);
        count := count + 1;
        empty := queue.IsEmpty();
      }
      assert entries[..count] == entries;
    }

    // The count is of queue entries: it is the number of clients closed exactly when no client
    // is queued twice and every entry is a client.
    method CloseHungups() returns (count: nat)
      requires Valid()
      modifies this, clients, clients.data, queue
      ensures Valid() && queue.Contents() == [] && count == |old(queue.Contents())|
      ensures clients.data == old(clients.data) || fresh(clients.data)
      ensures var gone := Elements(old(queue.Contents()));
        && Registered() == old(Registered()) - gone
        && open == old(open) - gone && selector == old(selector) - gone
      ensures forall fd: ULong :: fd in Registered() <==> fd in old(Registered()) && fd !in old(queue.Contents())
      ensures old(Agree()) ==> Agree()
      ensures count == |old(Registered()) - Registered()| <==>
        Distinct(old(queue.Contents())) && old(QueueRegistered())
      ensures count == |old(open) - open| <==>
        Distinct(old(queue.Contents())) && Elements(old(queue.Contents())) <= old(open)
    {
      ghost var entries, before := queue.Contents(), Ledger();
      count := CloseAll(before, entries);
      CountsClosed(entries, before, Ledger());
    }

    method DisconnectAllForeach(fd: ULong)
      requires Valid() && fd < WORD_BITS * clients.size
      modifies this, clients, clients.data
      ensures Valid() && clients.data == old(clients.data) && clients.size == old(clients.size)
      ensures Registered() == old(Registered()) - {fd}
      ensures open == old(open) - {fd} && selector == old(selector) - {fd}
    {
      clients.Set(fd, 0);
      KernelDrops(fd);
    }

    // The clients below `bound` have been visited and closed; the others are untouched.
    ghost predicate Progress(all: set<nat>, before: Books, closed: seq<nat>, bound: nat)
      reads this, clients, clients.data
    {
      Lists(closed, Below(all, bound)) && Ledger() == before.Without(Below(all, bound))
    }

    // boolset_foreach at one bit of a word: the callback is called when it is set.
    method VisitBit(index: ULong, on: bool, ghost all: set<nat>, ghost before: Books, ghost closed: seq<nat>)
        returns (ghost visited: seq<nat>)
      requires Valid() && index < WORD_BITS * clients.size && (on <==> index in all)
      requires Progress(all, before, closed, index)
      modifies this, clients, clients.data
      ensures Valid() && clients.data == old(clients.data) && clients.size == old(clients.size)
      ensures Progress(all, before, visited, index + 1)
    {
      visited := closed;
      BelowNext(all, index);
      if on {
        ListsAppend(closed, Below(all, index), index);
        DisconnectAllForeach(index);
        visited := closed + [index as nat];
      }
    }

    // boolset_foreach at one word, which is read once before any of its bits is visited.
    method VisitWord(majorIndex: nat, ghost all: set<nat>, ghost before: Books, ghost closed: seq<nat>)
        returns (ghost visited: seq<nat>)
      requires Valid() && majorIndex < clients.size && Progress(all, before, closed, WORD_BITS * majorIndex)
      requires before.registered == all
      modifies this, clients, clients.data
      ensures Valid() && clients.data == old(clients.data) && clients.size == old(clients.size)
      ensures Progress(all, before, visited, WORD_BITS * (majorIndex + 1))
    {
      visited := closed;
      var value := clients.data[majorIndex];
      if value == 0 {
        EmptyWord(clients.data[..], majorIndex);
        assert Below(all, WORD_BITS * majorIndex) * all == Below(all, WORD_BITS * majorIndex);
        SkipWord(all, Registered(), all, WORD_BITS * majorIndex);
      } else {
        WordBits(clients.data[..], majorIndex);
        var minorIndex := 0;
        while minorIndex < WORD_BITS
          invariant minorIndex <= WORD_BITS && Valid()
          invariant clients.data == old(clients.data) && clients.size == old(clients.size)
          invariant Progress(all, before, visited, WORD_BITS * majorIndex + minorIndex)
          invariant forall k :: minorIndex <= k < WORD_BITS ==>
            (BitIn(value, k) <==> WORD_BITS * majorIndex + k in all)
        {
          var on := BitIn(value, minorIndex);
          visited := VisitBit(majorIndex * WORD_BITS + minorIndex, on, all, before, visited);
          minorIndex := minorIndex + 1;
        }
      }
    }

    // boolset_foreach with DisconnectAllForeach for its callback, which clears each bit
    // of the set that is being walked. `closed` records the clients in the order visited.
    method DisconnectAllClients() returns (ghost closed: seq<nat>)
      requires Valid()
      modifies this, clients, clients.data, queue
      ensures Valid() && queue.Contents() == []
      ensures Lists(closed, old(Registered()))
      ensures Registered() == {} && open == old(open) - old(Registered())
      ensures selector == old(selector) - old(Registered())
      ensures clients.data == old(clients.data) && clients.size == old(clients.size)
      ensures old(Agree()) ==> Agree() && open == {}
    {
      closed := [];
      ghost var all, before := Registered(), Ledger();
      var majorIndex := 0;
      while majorIndex < clients.size
        invariant majorIndex <= clients.size && Valid()
        invariant clients.data == old(clients.data) && clients.size == old(clients.size)
        invariant Progress(all, before, closed, WORD_BITS * majorIndex)
      {
        closed := VisitWord(majorIndex, all, before, closed);
        majorIndex := majorIndex + 1;
      }
      assert Below(all, WORD_BITS * clients.size) == all;
      queue.Empty();
    }
  }
}

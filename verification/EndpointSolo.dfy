// The two models of the endpoint agree. A call that one thread makes alone does, step by step,
// what the model of whole calls says; and every orderly list of calls is a run of the threads.

module EndpointSolo {
  import opened Sequences
  import opened EndpointThreads
  import opened EndpointLocks
  import opened EndpointProgress
  import opened EndpointRuns
  import EndpointCalls
  import EndpointHangups
  import EndpointReuse

  // What the threads share.
  datatype World = World(registered: set<Fd>, queue: seq<Fd>, open: set<Fd>, selector: set<Fd>) {
    function Without(fds: set<Fd>): World {
      World(registered - fds, queue, open - fds, selector - fds)
    }

    // The clients that are still queued go, and the queue with them.
    function Drained(): World {
      Without(EndpointCalls.Elements(queue)).(queue := [])
    }

    // The kernel has dropped fd, and adds nothing.
    function Dropped(fd: Fd): World {
      this.(open := open - {fd}, selector := selector - {fd})
    }

    function Added(fd: Fd): World {
      this.(selector := if fd in open then selector + {fd} else selector)
    }
  }

  function WorldOf(s: State): World { World(s.registered, s.queue, s.open, s.selector) }

  // The world as it will be when a thread has finished its call, if no other thread moves.
  function Finish(pc: Thread, w: World): World {
    match pc
    case Idle => w
    case WantRegister(fd) => w.(registered := w.registered + {fd}).Added(fd)
    case Registering(fd) => w.(registered := w.registered + {fd}).Added(fd)
    case Adding(fd) => w.Added(fd)
    case WantEnqueue(fd) => w.(queue := [fd] + w.queue)
    case Enqueuing(fd) => w.(queue := [fd] + w.queue)
    case WantHungups => w.Drained()
    case Hungups => w.Drained()
    case WantDeregister(fd, hungups) => if hungups then w.Without({fd}).Drained() else w.Without({fd})
    case Deregistering(fd, hungups) => if hungups then w.Without({fd}).Drained() else w.Without({fd})
    case Deleting(fd, hungups) => if hungups then w.Dropped(fd).Drained() else w.Dropped(fd)
    case Closing(fd, hungups) => if hungups then w.Dropped(fd).Drained() else w.Dropped(fd)
    case WantAll => w.Without(w.registered).(queue := [])
    case ClosingAll(todo) => w.Without(todo).(queue := [])
    case AllDeleting(fd, todo) => w.Dropped(fd).Without(todo).(queue := [])
    case AllClosing(fd, todo) => w.Dropped(fd).Without(todo).(queue := [])
    case WantClear => w.(queue := [])
    case Clearing => w.(queue := [])
  }

  ghost predicate OnCourse(s: State, a: Action)
    requires Enabled(s, a)
  {
    var s' := Apply(s, a);
    Finish(s'.threads[a.t], WorldOf(s')) == Finish(s.threads[a.t], WorldOf(s))
  }

  lemma LockOnCourse(s: State, a: Action)
    requires Enabled(s, a) && (a.LockClients? || a.LockQueue?)
    ensures OnCourse(s, a)
  {
  }

  lemma AcceptOnCourse(s: State, a: Action)
    requires Enabled(s, a) && (a.Register? || a.AddToSelector? || a.Enqueue?)
    ensures OnCourse(s, a)
  {
  }

  lemma PopOnCourse(s: State, a: Action)
    requires Enabled(s, a) && (a.PopHungup? || a.EndHungups?)
    ensures OnCourse(s, a)
  {
    if a.PopHungup? {
      assert s.queue == [s.queue[0]] + s.queue[1..];
      assert EndpointCalls.Elements(s.queue) == {s.queue[0]} + EndpointCalls.Elements(s.queue[1..]);
    }
  }

  lemma DeregisterOnCourse(s: State, a: Action)
    requires Enabled(s, a) && a.Deregister?
    ensures OnCourse(s, a)
  {
  }

  lemma DeleteOnCourse(s: State, a: Action)
    requires Enabled(s, a) && a.DeleteFromSelector?
    ensures OnCourse(s, a)
  {
  }

  lemma CloseOnCourse(s: State, a: Action)
    requires Enabled(s, a) && a.Close?
    ensures OnCourse(s, a)
  {
  }

  lemma AllOnCourse(s: State, a: Action)
    requires Enabled(s, a) && (a.PickClient? || a.EndAll? || a.ClearQueue?)
    ensures OnCourse(s, a)
  {
  }

  lemma StepOnCourse(s: State, a: Action)
    requires Enabled(s, a) && !Begins(a)
    ensures OnCourse(s, a)
  {
    match a
    case LockClients(_) => LockOnCourse(s, a);
    case LockQueue(_) => LockOnCourse(s, a);
    case Register(_) => AcceptOnCourse(s, a);
    case AddToSelector(_) => AcceptOnCourse(s, a);
    case Enqueue(_) => AcceptOnCourse(s, a);
    case PopHungup(_) => PopOnCourse(s, a);
    case EndHungups(_) => PopOnCourse(s, a);
    case Deregister(_) => DeregisterOnCourse(s, a);
    case DeleteFromSelector(_) => DeleteOnCourse(s, a);
    case Close(_) => CloseOnCourse(s, a);
    case PickClient(_, _) => AllOnCourse(s, a);
    case EndAll(_) => AllOnCourse(s, a);
    case ClearQueue(_) => AllOnCourse(s, a);
  }

  // ---- Calls ----

  // The step that begins a call. An accept takes one client at a time, and an event is one that
  // says the client hung up.
  ghost predicate BeginsCall(a: Action, call: Call) {
    match a
    case AcceptReturns(_, fd) => call == Accepts({fd})
    case HangupEvent(_, fd) =>
      call.WaitsFor? && |call.events| == 1 && call.events[0].fd == fd && EndpointCalls.HangsUp(call.events[0])
    case CallCloseHungups(_) => call == ClosesHungups
    case CallDisconnect(_, fd) => call.Disconnects? && call.fd == fd
    case CallDisconnectAll(_) => call == DisconnectsAll
    case _ => false
  }

  function ViewOf(w: World): View { View(w.registered, w.queue) }

  // The record, the kernel and the selector name the same clients.
  predicate Agrees(w: World) { w.registered == w.open == w.selector }

  lemma BeginSetsCourse(s: State, a: Action, call: Call)
    requires Enabled(s, a) && BeginsCall(a, call)
    ensures var end := Finish(Apply(s, a).threads[a.t], WorldOf(Apply(s, a)));
      && ViewOf(end) == Do(ViewOf(WorldOf(s)), call)
      && (Agrees(WorldOf(s)) ==> Agrees(end))
  {
    if a.HangupEvent? {
      assert call.events[..0] == [];
      assert EndpointCalls.HangUps(call.events) == [call.events[0].fd];
    }
  }

  // ---- A call made alone ----

  // The steps of thread t alone, none of which begins a call.
  ghost predicate Alone(s: State, t: nat, run: seq<Action>) {
    Settling(s, run) && forall i :: 0 <= i < |run| ==> run[i].t == t
  }

  lemma {:induction false} AloneOnCourse(s: State, t: nat, run: seq<Action>)
    requires Alone(s, t, run) && t < |s.threads|
    ensures var end := After(s, run);
      && |end.threads| == |s.threads| && (forall i :: 0 <= i < |s.threads| && i != t ==> end.threads[i] == s.threads[i])
      && Finish(end.threads[t], WorldOf(end)) == Finish(s.threads[t], WorldOf(s))
    decreases |run|
  {
    if run != [] {
      StepOnCourse(s, run[0]);
      OneMoves(s, run[0]);
      assert forall i :: 0 <= i < |run[1..]| ==> run[1..][i] == run[i + 1];
      AloneOnCourse(Apply(s, run[0]), t, run[1..]);
    }
  }

  // From any state, whatever the other threads are in the middle of: a call that its thread
  // finishes while no other moves does to the record and the queue what the call is said to do.
  lemma {:induction false} CallAlone(s: State, a: Action, run: seq<Action>, call: Call)
    requires Enabled(s, a) && BeginsCall(a, call) && Alone(Apply(s, a), a.t, run)
    requires a.t < |After(Apply(s, a), run).threads| && After(Apply(s, a), run).threads[a.t].Idle?
    ensures var end := After(Apply(s, a), run);
      && ViewOf(WorldOf(end)) == Do(ViewOf(WorldOf(s)), call)
      && (Agrees(WorldOf(s)) ==> Agrees(WorldOf(end)))
  {
    BeginSetsCourse(s, a, call);
    OneMoves(s, a);
    AloneOnCourse(Apply(s, a), a.t, run);
  }

  // ---- Runs of calls are runs of a thread ----

  // Every queued client is registered and queued once.
  ghost predicate QueueOk(w: World) {
    EndpointCalls.Distinct(w.queue) && EndpointCalls.Elements(w.queue) <= w.registered
  }

  predicate DisconnectingAll(pc: Thread) {
    pc.WantAll? || pc.ClosingAll? || pc.AllDeleting? || pc.AllClosing? || pc.WantClear? || pc.Clearing?
  }

  // So it is all through a call, but for disconnect-all, which clears the queue last. When the
  // callers are strict that finds an empty queue.
  ghost predicate Tidy(strict: bool, pc: Thread, w: World) {
    if DisconnectingAll(pc) then
      strict ==> w.queue == []
    else
      match pc
      case WantEnqueue(fd) => QueueOk(w) && fd in w.registered && fd !in w.queue
      case Enqueuing(fd) => QueueOk(w) && fd in w.registered && fd !in w.queue
      case WantDeregister(fd, _) => QueueOk(w) && fd in w.registered && fd !in w.queue
      case Deregistering(fd, _) => QueueOk(w) && fd in w.registered && fd !in w.queue
      case _ => QueueOk(w)
  }

  lemma EnqueueTidy(strict: bool, s: State, a: Action)
    requires Enabled(s, a) && a.Enqueue? && Tidy(strict, s.threads[a.t], WorldOf(s))
    ensures Tidy(strict, Apply(s, a).threads[a.t], WorldOf(Apply(s, a)))
  {
    var fd, q := s.threads[a.t].fd, s.queue;
    forall i, j | 0 <= i < j < |[fd] + q| ensures ([fd] + q)[i] != ([fd] + q)[j] {
      assert j > 0 && ([fd] + q)[j] == q[j - 1];
    }
  }

  lemma PopTidy(strict: bool, s: State, a: Action)
    requires Enabled(s, a) && a.PopHungup? && Tidy(strict, s.threads[a.t], WorldOf(s))
    ensures Tidy(strict, Apply(s, a).threads[a.t], WorldOf(Apply(s, a)))
  {
    var q := s.queue;
    assert forall i :: 0 <= i < |q[1..]| ==> q[1..][i] == q[i + 1];
  }

  lemma AllTidy(strict: bool, s: State, a: Action)
    requires Enabled(s, a) && DisconnectingAll(s.threads[a.t]) && Tidy(strict, s.threads[a.t], WorldOf(s))
    ensures Tidy(strict, Apply(s, a).threads[a.t], WorldOf(Apply(s, a)))
  {
  }

  lemma OtherTidy(strict: bool, s: State, a: Action)
    requires Enabled(s, a) && !Begins(a) && !a.Enqueue? && !a.PopHungup?
    requires !DisconnectingAll(s.threads[a.t]) && Tidy(strict, s.threads[a.t], WorldOf(s))
    ensures Tidy(strict, Apply(s, a).threads[a.t], WorldOf(Apply(s, a)))
  {
  }

  lemma StepTidy(strict: bool, s: State, a: Action)
    requires Enabled(s, a) && !Begins(a) && Tidy(strict, s.threads[a.t], WorldOf(s))
    ensures Tidy(strict, Apply(s, a).threads[a.t], WorldOf(Apply(s, a)))
  {
    if a.Enqueue? {
      EnqueueTidy(strict, s, a);
    } else if a.PopHungup? {
      PopTidy(strict, s, a);
    } else if DisconnectingAll(s.threads[a.t]) {
      AllTidy(strict, s, a);
    } else {
      OtherTidy(strict, s, a);
    }
  }

  // No connection is disconnected twice; and strict callers leave a queued client to the queue.
  ghost predicate Careful(strict: bool, s: State, a: Action) {
    EndpointReuse.Disciplined(s, a) && (strict ==> EndpointHangups.Strict(s, a))
  }

  ghost predicate CarefulRun(strict: bool, s: State, run: seq<Action>) {
    EndpointReuse.DisciplinedRun(s, run) && (strict ==> EndpointHangups.StrictRun(s, run))
  }

  lemma SoloIsCareful(strict: bool, s: State, a: Action)
    requires |s.threads| == 1 && Enabled(s, a) && !Begins(a) && Tidy(strict, s.threads[0], WorldOf(s))
    ensures Careful(strict, s, a)
  {
    assert a.t == 0;
  }

  lemma {:induction false} CarefulNext(strict: bool, s: State, run: seq<Action>, a: Action)
    requires CarefulRun(strict, s, run) && IsRun(s, run)
    requires Enabled(After(s, run), a) && Careful(strict, After(s, run), a)
    ensures CarefulRun(strict, s, run + [a]) && IsRun(s, run + [a])
    ensures After(s, run + [a]) == Apply(After(s, run), a)
    decreases |run|
  {
    if run == [] {
      assert [] + [a] == [a] && [a][1..] == [];
    } else {
      assert (run + [a])[1..] == run[1..] + [a];
      CarefulNext(strict, Apply(s, run[0]), run[1..], a);
    }
  }

  // A careful run of one thread.
  ghost predicate Solo(strict: bool, run: seq<Action>) {
    && CarefulRun(strict, Init(1), run) && IsRun(Init(1), run)
    && var s := After(Init(1), run); |s.threads| == 1 && Tidy(strict, s.threads[0], WorldOf(s))
  }

  lemma TidyNext(strict: bool, s: State, a: Action)
    requires |s.threads| == 1 && Enabled(s, a) && !Begins(a) && Tidy(strict, s.threads[0], WorldOf(s))
    ensures Careful(strict, s, a)
    ensures |Apply(s, a).threads| == 1 && Tidy(strict, Apply(s, a).threads[0], WorldOf(Apply(s, a)))
  {
    assert a.t == 0;
    SoloIsCareful(strict, s, a);
    OneMoves(s, a);
    StepTidy(strict, s, a);
  }

  lemma {:induction false} SoloNext(strict: bool, run: seq<Action>, a: Action)
    requires Solo(strict, run) && Enabled(After(Init(1), run), a) && !Begins(a)
    ensures Solo(strict, run + [a]) && After(Init(1), run + [a]) == Apply(After(Init(1), run), a)
  {
    TidyNext(strict, After(Init(1), run), a);
    CarefulNext(strict, Init(1), run, a);
  }

  // A call under way can be finished.
  lemma {:induction false} FinishCall(strict: bool, run: seq<Action>, bound: nat) returns (end: seq<Action>)
    requires Solo(strict, run) && Possible(After(Init(1), run)) <= bound
    ensures Solo(strict, end)
    ensures var s, s' := After(Init(1), run), After(Init(1), end);
      s'.threads[0].Idle? && WorldOf(s') == Finish(s.threads[0], WorldOf(s))
    decreases Measure(After(Init(1), run), bound)
  {
    var s := After(Init(1), run);
    if s.threads[0].Idle? {
      end := run;
    } else {
      var a := NoDeadlock(1, run, 0);
      assert !Begins(a);
      StepFalls(s, a, bound);
      PossibleStays(s, a);
      StepOnCourse(s, a);
      SoloNext(strict, run, a);
      end := FinishCall(strict, run + [a], bound);
    }
  }

  // A run of one thread between two calls, at this point of a list of calls.
  ghost predicate At(strict: bool, run: seq<Action>, v: View) {
    && Solo(strict, run)
    && var s := After(Init(1), run); s.threads[0].Idle? && Agrees(WorldOf(s)) && ViewOf(WorldOf(s)) == v
  }

  // A call can be begun and finished.
  lemma MakeCall(strict: bool, run: seq<Action>, v: View, a: Action, call: Call) returns (end: seq<Action>)
    requires At(strict, run, v) && Enabled(After(Init(1), run), a) && BeginsCall(a, call)
    requires Careful(strict, After(Init(1), run), a)
    requires var s' := Apply(After(Init(1), run), a); Tidy(strict, s'.threads[0], WorldOf(s'))
    ensures At(strict, end, Do(v, call))
  {
    var s := After(Init(1), run);
    CarefulNext(strict, Init(1), run, a);
    OneMoves(s, a);
    BeginSetsCourse(s, a, call);
    end := FinishCall(strict, run + [a], Possible(Apply(s, a)));
  }

  lemma {:induction false} MakeAccepts(strict: bool, run: seq<Action>, v: View, fds: set<Fd>) returns (end: seq<Action>)
    requires At(strict, run, v) && fds !! v.registered
    ensures At(strict, end, Do(v, Accepts(fds)))
    decreases fds
  {
    if fds == {} {
      assert v.registered + fds == v.registered;
      end := run;
    } else {
      var fd :| fd in fds;
      var next := MakeCall(strict, run, v, AcceptReturns(0, fd), Accepts({fd}));
      end := MakeAccepts(strict, next, Do(v, Accepts({fd})), fds - {fd});
      assert v.registered + {fd} + (fds - {fd}) == v.registered + fds;
    }
  }

  ghost predicate NewHangups(v: View, events: seq<EndpointCalls.Event>) {
    && EndpointCalls.Distinct(EndpointCalls.HangUps(events) + v.queue)
    && EndpointCalls.Elements(EndpointCalls.HangUps(events)) <= v.registered
  }

  lemma {:induction false} LastHangup(v: View, events: seq<EndpointCalls.Event>)
    requires events != [] && NewHangups(v, events)
    ensures var n := |events| - 1; var earlier := events[..n];
      && NewHangups(v, earlier)
      && EndpointCalls.HangUps(events)
         == (if EndpointCalls.HangsUp(events[n]) then [events[n].fd] else []) + EndpointCalls.HangUps(earlier)
      && (EndpointCalls.HangsUp(events[n]) ==>
            events[n].fd in v.registered && events[n].fd as nat !in EndpointCalls.HangUps(earlier) + v.queue)
  {
    var n := |events| - 1;
    var earlier, all := EndpointCalls.HangUps(events[..n]), EndpointCalls.HangUps(events) + v.queue;
    if EndpointCalls.HangsUp(events[n]) {
      assert EndpointCalls.HangUps(events) == [events[n].fd] + earlier;
      assert forall i :: 0 <= i < |earlier + v.queue| ==> (earlier + v.queue)[i] == all[i + 1];
      assert all[0] == events[n].fd;
    } else {
      assert EndpointCalls.HangUps(events) == earlier;
    }
  }

  // One more event is taken after those before it.
  lemma {:induction false} MakeLastEvent(strict: bool, run: seq<Action>, v: View, events: seq<EndpointCalls.Event>)
      returns (end: seq<Action>)
    requires events != [] && NewHangups(v, events)
    requires At(strict, run, Do(v, WaitsFor(events[..|events| - 1])))
    ensures At(strict, end, Do(v, WaitsFor(events)))
  {
    var n := |events| - 1;
    var mid := Do(v, WaitsFor(events[..n]));
    LastHangup(v, events);
    if EndpointCalls.HangsUp(events[n]) {
      end := MakeHangup(strict, run, mid, events[n]);
      assert [events[n].fd as nat] + mid.queue == EndpointCalls.HangUps(events) + v.queue;
    } else {
      assert Do(v, WaitsFor(events)) == mid;
      end := run;
    }
  }

  lemma {:induction false} MakeWaits(strict: bool, run: seq<Action>, v: View, events: seq<EndpointCalls.Event>)
      returns (end: seq<Action>)
    requires At(strict, run, v) && NewHangups(v, events)
    ensures At(strict, end, Do(v, WaitsFor(events)))
    decreases |events|
  {
    if events == [] {
      assert EndpointCalls.HangUps(events) + v.queue == v.queue;
      end := run;
    } else {
      LastHangup(v, events);
      var next := MakeWaits(strict, run, v, events[..|events| - 1]);
      end := MakeLastEvent(strict, next, v, events);
    }
  }

  lemma MakeHangup(strict: bool, run: seq<Action>, v: View, e: EndpointCalls.Event) returns (end: seq<Action>)
    requires At(strict, run, v) && EndpointCalls.HangsUp(e) && e.fd in v.registered && e.fd as nat !in v.queue
    ensures At(strict, end, View(v.registered, [e.fd as nat] + v.queue))
  {
    end := MakeCall(strict, run, v, HangupEvent(0, e.fd), WaitsFor([e]));
    assert [e][..0] == [];
    assert EndpointCalls.HangUps([e]) == [e.fd];
  }

  // A kernel returns descriptors that are not in use; hang-ups are reported once; and only
  // clients that are not queued are disconnected directly. Strict callers drain the queue
  // before they disconnect all clients.
  ghost predicate OrderlyCall(strict: bool, v: View, call: Call) {
    match call
    case Accepts(fds) => fds !! v.registered
    case WaitsFor(events) => NewHangups(v, events)
    case Disconnects(fd) => fd in v.registered && fd as nat !in v.queue
    case DisconnectsAll => strict ==> v.queue == []
    case ClosesHungups => true
  }

  ghost predicate OrderlyCalls(strict: bool, v: View, calls: seq<Call>)
    decreases |calls|
  {
    calls == [] || (OrderlyCall(strict, v, calls[0]) && OrderlyCalls(strict, Do(v, calls[0]), calls[1..]))
  }

  lemma MakeCloseHungups(strict: bool, run: seq<Action>, v: View) returns (end: seq<Action>)
    requires At(strict, run, v)
    ensures At(strict, end, Do(v, ClosesHungups))
  {
    end := MakeCall(strict, run, v, CallCloseHungups(0), ClosesHungups);
  }

  lemma MakeDisconnect(strict: bool, run: seq<Action>, v: View, call: Call) returns (end: seq<Action>)
    requires At(strict, run, v) && call.Disconnects? && OrderlyCall(strict, v, call)
    ensures At(strict, end, Do(v, call))
  {
    end := MakeCall(strict, run, v, CallDisconnect(0, call.fd), call);
  }

  lemma MakeDisconnectAll(strict: bool, run: seq<Action>, v: View) returns (end: seq<Action>)
    requires At(strict, run, v) && OrderlyCall(strict, v, DisconnectsAll)
    ensures At(strict, end, Do(v, DisconnectsAll))
  {
    end := MakeCall(strict, run, v, CallDisconnectAll(0), DisconnectsAll);
  }

  lemma MakeOne(strict: bool, run: seq<Action>, v: View, call: Call) returns (end: seq<Action>)
    requires At(strict, run, v) && OrderlyCall(strict, v, call)
    ensures At(strict, end, Do(v, call))
  {
    match call
    case Accepts(fds) => end := MakeAccepts(strict, run, v, fds);
    case WaitsFor(events) => end := MakeWaits(strict, run, v, events);
    case ClosesHungups => end := MakeCloseHungups(strict, run, v);
    case Disconnects(_) => end := MakeDisconnect(strict, run, v, call);
    case DisconnectsAll => end := MakeDisconnectAll(strict, run, v);
  }

  lemma {:induction false} MakeCalls(strict: bool, run: seq<Action>, v: View, calls: seq<Call>)
      returns (end: seq<Action>)
    requires At(strict, run, v) && OrderlyCalls(strict, v, calls)
    ensures At(strict, end, AfterCalls(v, calls))
    decreases |calls|
  {
    end := run;
    if calls != [] {
      end := MakeOne(strict, run, v, calls[0]);
      end := MakeCalls(strict, end, Do(v, calls[0]), calls[1..]);
    }
  }

  // Every orderly list of calls is a run of one thread that disconnects no connection twice,
  // with the record, the queue and the kernel that the list of calls says. When the callers are
  // strict so is the run.
  lemma {:induction false} CallsAreRealised(strict: bool, calls: seq<Call>) returns (run: seq<Action>)
    requires OrderlyCalls(strict, View({}, []), calls)
    ensures EndpointReuse.DisciplinedRun(Init(1), run) && (strict ==> EndpointHangups.StrictRun(Init(1), run))
    ensures IsRun(Init(1), run)
    ensures var s := After(Init(1), run);
      && s.threads == [Idle] && s.registered == s.open == s.selector
      && View(s.registered, s.queue) == AfterCalls(View({}, []), calls)
  {
    run := MakeCalls(strict, [], View({}, []), calls);
    assert |After(Init(1), run).threads| == 1;
  }
}

// Every endpoint call returns: while no new call begins, each step of each thread lowers a
// measure, and until all threads are idle one of them can step.

module EndpointProgress {
  import opened Sequences
  import opened EndpointThreads
  import opened EndpointLocks

  // The steps that begin a call, or an iteration of accept or of the event loop.
  predicate Begins(a: Action) {
    a.AcceptReturns? || a.HangupEvent? || a.CallCloseHungups? || a.CallDisconnect? || a.CallDisconnectAll?
  }

  ghost predicate Settling(s: State, run: seq<Action>) {
    IsRun(s, run) && forall i :: 0 <= i < |run| ==> !Begins(run[i])
  }

  function Arrives(pc: Thread): nat { if pc.WantRegister? || pc.Registering? then 1 else 0 }

  // The clients that a disconnect-all may yet find on record.
  ghost function Possible(s: State): nat {
    |s.registered| + Total(s.threads, Arrives)
  }

  // The steps a thread has yet to make, when it may find `bound` clients on record. An entry
  // of the queue stands for the six steps of taking and disconnecting it.
  function Steps(pc: Thread, bound: nat): nat {
    match pc
    case Idle => 0
    case WantRegister(_) => 3
    case Registering(_) => 2
    case Adding(_) => 1
    case WantEnqueue(_) => 8
    case Enqueuing(_) => 7
    case WantHungups => 2
    case Hungups => 1
    case WantDeregister(_, hungups) => if hungups then 5 else 4
    case Deregistering(_, hungups) => if hungups then 4 else 3
    case Deleting(_, hungups) => if hungups then 3 else 2
    case Closing(_, hungups) => if hungups then 2 else 1
    case WantAll => 4 + 3 * bound
    case ClosingAll(todo) => 3 + 3 * |todo|
    case AllDeleting(_, todo) => 5 + 3 * |todo|
    case AllClosing(_, todo) => 4 + 3 * |todo|
    case WantClear => 2
    case Clearing => 1
  }

  ghost function Measure(s: State, bound: nat): nat {
    Total(s.threads, pc => Steps(pc, bound)) + 6 * |s.queue|
  }

  lemma SetShrinks(s: set<Fd>, fd: Fd)
    ensures |s - {fd}| == if fd in s then |s| - 1 else |s|
    ensures |s + {fd}| <= |s| + 1
  {
    if fd in s {
      assert s == (s - {fd}) + {fd};
    } else {
      assert s - {fd} == s;
    }
  }

  // The steps that change the record.
  predicate Records(a: Action) { a.Register? || a.Deregister? || a.PickClient? }

  lemma RecordStays(s: State, a: Action)
    requires Enabled(s, a) && !Begins(a) && !Records(a)
    ensures var s' := Apply(s, a);
      s'.registered == s.registered && Arrives(s'.threads[a.t]) <= Arrives(s.threads[a.t])
  {
  }

  lemma RecordChanges(s: State, a: Action)
    requires Enabled(s, a) && Records(a)
    ensures var s' := Apply(s, a);
      |s'.registered| + Arrives(s'.threads[a.t]) <= |s.registered| + Arrives(s.threads[a.t])
  {
    SetShrinks(s.registered, if a.PickClient? then a.fd else s.threads[a.t].fd);
  }

  lemma PossibleStays(s: State, a: Action)
    requires Enabled(s, a) && !Begins(a)
    ensures Possible(Apply(s, a)) <= Possible(s)
  {
    OneMoves(s, a);
    if Records(a) { RecordChanges(s, a); } else { RecordStays(s, a); }
    TotalUpdate(s.threads, a.t, Apply(s, a).threads[a.t], Arrives);
  }

  lemma LockFalls(s: State, a: Action, bound: nat)
    requires Enabled(s, a) && (a.LockClients? || a.LockQueue?) && |s.registered| <= bound
    ensures Steps(Apply(s, a).threads[a.t], bound) < Steps(s.threads[a.t], bound)
    ensures Apply(s, a).queue == s.queue
  {
  }

  lemma QueueFalls(s: State, a: Action, bound: nat)
    requires Enabled(s, a) && (a.Enqueue? || a.PopHungup? || a.EndHungups? || a.ClearQueue?)
    ensures var s' := Apply(s, a);
      Steps(s'.threads[a.t], bound) + 6 * |s'.queue| < Steps(s.threads[a.t], bound) + 6 * |s.queue|
  {
  }

  lemma PickFalls(s: State, a: Action, bound: nat)
    requires Enabled(s, a) && a.PickClient?
    ensures Steps(Apply(s, a).threads[a.t], bound) < Steps(s.threads[a.t], bound) && Apply(s, a).queue == s.queue
  {
    SetShrinks(s.threads[a.t].todo, a.fd);
  }

  lemma WorkFalls(s: State, a: Action, bound: nat)
    requires Enabled(s, a)
    requires a.Register? || a.AddToSelector? || a.Deregister? || a.DeleteFromSelector? || a.Close? || a.EndAll?
    ensures Steps(Apply(s, a).threads[a.t], bound) < Steps(s.threads[a.t], bound) && Apply(s, a).queue == s.queue
  {
  }

  lemma ThreadFalls(s: State, a: Action, bound: nat)
    requires Enabled(s, a) && !Begins(a) && |s.registered| <= bound
    ensures var s' := Apply(s, a);
      Steps(s'.threads[a.t], bound) + 6 * |s'.queue| < Steps(s.threads[a.t], bound) + 6 * |s.queue|
  {
    if a.LockClients? || a.LockQueue? {
      LockFalls(s, a, bound);
    } else if a.PickClient? {
      PickFalls(s, a, bound);
    } else if a.Enqueue? || a.PopHungup? || a.EndHungups? || a.ClearQueue? {
      QueueFalls(s, a, bound);
    } else {
      WorkFalls(s, a, bound);
    }
  }

  lemma StepFalls(s: State, a: Action, bound: nat)
    requires Enabled(s, a) && !Begins(a) && Possible(s) <= bound
    ensures Measure(Apply(s, a), bound) < Measure(s, bound)
  {
    OneMoves(s, a);
    ThreadFalls(s, a, bound);
    TotalUpdate(s.threads, a.t, Apply(s, a).threads[a.t], pc => Steps(pc, bound));
  }

  lemma {:induction false} SettlingIsBounded(s: State, run: seq<Action>, bound: nat)
    requires Settling(s, run) && Possible(s) <= bound
    ensures |run| + Measure(After(s, run), bound) <= Measure(s, bound)
    decreases |run|
  {
    if run != [] {
      StepFalls(s, run[0], bound);
      PossibleStays(s, run[0]);
      assert forall i :: 0 <= i < |run[1..]| ==> run[1..][i] == run[i + 1];
      SettlingIsBounded(Apply(s, run[0]), run[1..], bound);
    }
  }

  lemma {:induction false} RunThen(s: State, run: seq<Action>, more: seq<Action>)
    requires IsRun(s, run) && IsRun(After(s, run), more)
    ensures IsRun(s, run + more) && After(s, run + more) == After(After(s, run), more)
    decreases |run|
  {
    if run == [] {
      assert run + more == more;
    } else {
      assert (run + more)[1..] == run[1..] + more;
      RunThen(Apply(s, run[0]), run[1..], more);
    }
  }

  // After any run of any number of threads: however the calls already begun are interleaved,
  // they take a bounded number of steps, and when none of them can step they have returned.
  lemma {:induction false} CallsReturn(n: nat, run: seq<Action>, more: seq<Action>)
    requires IsRun(Init(n), run) && Settling(After(Init(n), run), more)
    ensures var s := After(Init(n), run);
      && |more| <= Measure(s, Possible(s))
      && (var end := After(s, more);
          (forall a :: Enabled(end, a) ==> Begins(a)) ==>
            forall t :: 0 <= t < |end.threads| ==> end.threads[t].Idle?)
  {
    var s := After(Init(n), run);
    SettlingIsBounded(s, more, Possible(s));
    RunThen(Init(n), run, more);
    var end := After(s, more);
    if t: nat :| t < |end.threads| && !end.threads[t].Idle? {
      var a := NoDeadlock(n, run + more, t);
      assert !Begins(a);
    }
  }
}

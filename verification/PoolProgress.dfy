// Before _stop is written. Calls of post return and posted jobs are run without a join: while
// no new call is made every step lowers a measure, and when only a new call, the write of
// _stop or a spurious wakeup is possible, all posters are idle, all workers wait and every
// posted job has been run.

module PoolProgress {
  import opened Sequences
  import opened Pool
  import opened PoolSafety
  import opened PoolRefinement
  import opened PoolWakeups
  import opened PoolShutdown
  import PoolCalls
  import PoolStop
  import Dispatcher

  // The steps that need something from outside: a call, the join, or an accident.
  predicate Outside(a: Action) { a.Call? || a.WriteStop? || a.SpuriousWakeup? }

  ghost predicate Quieting(c: Config, s: State, run: seq<Action>) {
    OrderlyRun(c, s, run) && forall i :: 0 <= i < |run| ==> !Outside(run[i])
  }

  ghost predicate Reached(c: Config, s: State) {
    Core(c, s) && Calm(s) && NoJobSleeps(s)
  }

  lemma {:induction false} RunReaches(c: Config, n: nat, m: nat, run: seq<Action>)
    requires c.Valid() && IsRun(c, Init(n, m), run) && !After(c, Init(n, m), run).stop
    ensures Reached(c, After(c, Init(n, m), run))
  {
    PoolStop.InitServes(c, n, m);
    PoolStop.ServingRun(c, Init(n, m), run);
    NoJobEverSleeps(c, n, m, run);
  }

  lemma ReachedStep(c: Config, s: State, a: Action)
    requires c.Valid() && Reached(c, s) && Enabled(c, s, a) && !a.WriteStop?
    ensures Reached(c, Apply(c, s, a))
  {
    CoreStep(c, s, a);
    CalmStep(c, s, a);
    SleepStep(c, s, a);
  }

  // ---- A measure that every other step lowers ----

  // A word in the queue counts 11. A signal that is owed counts for the waiter it may wake.
  function Weight(w: Worker): nat {
    match w
    case Waiting => 0
    case ParkReady => 1
    case Testing => 2
    case WantLock => 3
    case SawEmpty => 4
    case AtGuard => 5
    case Running(_) => 6
    case OwesRun(_) => 10
    case Taking(got) => 1 + 10 * |got|
    case Leaving => 0
    case OwesExit => 0
    case Exited => 0
  }

  function PosterWeight(p: Poster): nat {
    match p
    case Idle => 0
    case Notified => 1
    case OwesSignal => 5
    case Pushed => 6
    case Pushing(job, pushed) => 6 + if pushed <= |job| then 12 * (|job| - pushed) else 0
    case Calling(job) => 7 + 12 * |job|
  }

  ghost function Work(s: State): nat {
    Total(s.workers, Weight) + Total(s.posters, PosterWeight) + 11 * |s.queue|
  }

  // The step of one worker costs it more than it puts in the queue.
  ghost predicate Lightens(c: Config, s: State, a: Action)
    requires Enabled(c, s, a) && MovesOneWorker(a)
  {
    var s' := Apply(c, s, a);
    && |s'.workers| == |s.workers|
    && Weight(s'.workers[a.w]) + 11 * |s'.queue| < Weight(s.workers[a.w]) + 11 * |s.queue|
  }

  lemma PopLightens(c: Config, s: State, a: Action)
    requires c.Valid() && Ordered(c, s) && Enabled(c, s, a) && a.Pop?
    ensures Lightens(c, s, a)
  {
    PopFindsAWord(c, s, a.w);
  }

  lemma UnlockLightens(c: Config, s: State, a: Action)
    requires c.Valid() && Enabled(c, s, a) && a.UnlockToRun?
    ensures Lightens(c, s, a)
  {
  }

  lemma WorkerLightens(c: Config, s: State, a: Action)
    requires Calm(s) && Enabled(c, s, a) && MovesOneWorker(a) && !Outside(a) && !a.Pop? && !a.UnlockToRun?
    ensures Lightens(c, s, a)
  {
    assert !Gone(s.workers[a.w]);
  }

  lemma WorkerEases(c: Config, s: State, a: Action)
    requires c.Valid() && Ordered(c, s) && Calm(s) && Enabled(c, s, a) && MovesOneWorker(a) && !Outside(a)
    ensures Work(Apply(c, s, a)) < Work(s)
  {
    var s' := Apply(c, s, a);
    WorkerFrame(c, s, a);
    if a.Pop? {
      PopLightens(c, s, a);
    } else if a.UnlockToRun? {
      UnlockLightens(c, s, a);
    } else {
      WorkerLightens(c, s, a);
    }
    TotalUpdate(s.workers, a.w, s'.workers[a.w], Weight);
  }

  lemma PushEases(c: Config, s: State, a: Action)
    requires Ordered(c, s) && Enabled(c, s, a) && a.Push?
    ensures var s' := Apply(c, s, a);
      PosterWeight(s'.posters[a.p]) + 11 * |s'.queue| < PosterWeight(s.posters[a.p]) + 11 * |s.queue|
  {
  }

  lemma LockEases(c: Config, s: State, a: Action)
    requires Ordered(c, s) && Enabled(c, s, a) && (a.PosterLock? || a.PosterUnlock?)
    ensures var s' := Apply(c, s, a);
      PosterWeight(s'.posters[a.p]) < PosterWeight(s.posters[a.p]) && s'.queue == s.queue
  {
    assert PosterOk(c, s.posters[a.p]);
  }

  lemma PosterEases(c: Config, s: State, a: Action)
    requires Ordered(c, s) && Enabled(c, s, a) && MovesOnePoster(a) && !Outside(a)
    ensures Work(Apply(c, s, a)) < Work(s)
  {
    PosterFrame(c, s, a);
    if a.Push? { PushEases(c, s, a); } else { LockEases(c, s, a); }
    TotalUpdate(s.posters, a.p, Apply(c, s, a).posters[a.p], PosterWeight);
  }

  lemma WakeCosts(s: State, target: Option<nat>)
    requires SignalTarget(s, target)
    ensures Work(s.Wake(target)) <= Work(s) + 3
  {
    if target.Some? { TotalUpdate(s.workers, target.value, WantLock, Weight); }
  }

  lemma SignalPays(c: Config, s: State, a: Action)
    requires Calm(s) && Enabled(c, s, a) && (a.Signal? || a.PosterSignal?)
    ensures SignalTarget(BeforeWake(c, s, a), a.target) && Work(BeforeWake(c, s, a)) + 4 <= Work(s)
  {
    var mid := BeforeWake(c, s, a);
    if a.Signal? {
      assert !Gone(s.workers[a.w]);
      TotalUpdate(s.workers, a.w, mid.workers[a.w], Weight);
    } else {
      TotalUpdate(s.posters, a.p, mid.posters[a.p], PosterWeight);
    }
  }

  lemma StepEases(c: Config, s: State, a: Action)
    requires c.Valid() && Ordered(c, s) && Calm(s) && Enabled(c, s, a) && !Outside(a)
    ensures Work(Apply(c, s, a)) < Work(s)
  {
    if MovesOneWorker(a) {
      WorkerEases(c, s, a);
    } else if MovesOnePoster(a) {
      PosterEases(c, s, a);
    } else {
      assert a.Signal? || a.PosterSignal?;
      SignalPays(c, s, a);
      WakeCosts(BeforeWake(c, s, a), a.target);
    }
  }

  // ---- Some thread can step until all is done ----

  lemma PosterHolderCanStep(c: Config, s: State, p: nat) returns (a: Action)
    requires Ordered(c, s) && p < |s.posters| && PosterHolds(s.posters[p])
    ensures Enabled(c, s, a) && Orderly(s, a) && !Outside(a)
  {
    assert PosterOk(c, s.posters[p]);
    match s.posters[p]
    case Pushing(_, _) => a := Push(p);
    case Pushed =>
      if c.notifyInside {
        var target := PickTarget(s);
        a := PosterSignal(p, target);
      } else {
        a := PosterUnlock(p);
      }
    case Notified => a := PosterUnlock(p);
  }

  lemma HolderCanStep(c: Config, s: State) returns (a: Action)
    requires c.Valid() && Ordered(c, s) && !s.lock.Free?
    ensures Enabled(c, s, a) && Orderly(s, a) && !Outside(a)
  {
    match s.lock
    case HeldByWorker(w) => a := WorkerCanStep(c, s, w);
    case HeldByPoster(p) => a := PosterHolderCanStep(c, s, p);
  }

  lemma PosterCanStep(c: Config, s: State, p: nat) returns (a: Action)
    requires c.Valid() && Ordered(c, s) && p < |s.posters| && !s.posters[p].Idle?
    ensures Enabled(c, s, a) && Orderly(s, a) && !Outside(a)
  {
    assert PosterOk(c, s.posters[p]);
    if s.posters[p].Calling? {
      if s.lock.Free? { a := PosterLock(p); } else { a := HolderCanStep(c, s); }
    } else if s.posters[p].OwesSignal? {
      var target := PickTarget(s);
      a := PosterSignal(p, target);
    } else {
      a := PosterHolderCanStep(c, s, p);
    }
  }

  lemma AwakeCanStep(c: Config, s: State, w: nat) returns (a: Action)
    requires c.Valid() && Ordered(c, s) && Calm(s) && w < |s.workers| && !s.workers[w].Waiting?
    ensures Enabled(c, s, a) && Orderly(s, a) && !Outside(a)
  {
    if s.workers[w].WantLock? {
      if s.lock.Free? { a := Lock(w); } else { a := HolderCanStep(c, s); }
    } else {
      assert !Gone(s.workers[w]);
      a := WorkerCanStep(c, s, w);
    }
  }

  // Nothing is left to do: no call is under way, and every posted job has been run.
  ghost predicate Settled(s: State) {
    && PostersIdle(s) && s.queue == [] && s.finished == multiset(s.posted)
    && (forall i :: 0 <= i < |s.workers| ==> s.workers[i].Waiting?)
  }

  ghost predicate AtRest(s: State) {
    PostersIdle(s) && forall i :: 0 <= i < |s.workers| ==> s.workers[i].Waiting?
  }

  lemma RestIsSettled(c: Config, s: State)
    requires c.Valid() && Reached(c, s) && |s.workers| > 0 && AtRest(s)
    ensures Settled(s)
  {
    TotalAtLeast(s.workers, 0, Waits);
    TotalZero(s.workers, Checks);
    TotalZero(s.workers, Owes);
    TotalZero(s.posters, PosterOwes);
    WholeJobsWhenFree(c, s);
    GatherEmpty(s.workers, Carried);
    Dispatcher.ConservesAll(Abstract(s));
  }

  lemma NotSettledCanStep(c: Config, s: State) returns (a: Action)
    requires c.Valid() && Reached(c, s) && |s.workers| > 0 && !Settled(s)
    ensures Enabled(c, s, a) && Orderly(s, a) && !Outside(a)
  {
    if p: nat :| p < |s.posters| && !s.posters[p].Idle? {
      a := PosterCanStep(c, s, p);
    } else if w: nat :| w < |s.workers| && !s.workers[w].Waiting? {
      a := AwakeCanStep(c, s, w);
    } else {
      RestIsSettled(c, s);
      assert false;
      a := WriteStop;
    }
  }

  lemma WorkersRemain(c: Config, s: State, a: Action)
    requires Enabled(c, s, a)
    ensures |Apply(c, s, a).workers| == |s.workers| && |Apply(c, s, a).posters| == |s.posters|
  {
    if MovesOneWorker(a) {
      WorkerFrame(c, s, a);
    } else if MovesOnePoster(a) {
      PosterFrame(c, s, a);
    }
  }

  // ---- Whole runs ----

  lemma {:induction false} QuietingIsBounded(c: Config, s: State, run: seq<Action>)
    requires c.Valid() && Reached(c, s) && Quieting(c, s, run)
    ensures Reached(c, After(c, s, run)) && |run| + Work(After(c, s, run)) <= Work(s)
    ensures |After(c, s, run).workers| == |s.workers| && |After(c, s, run).posters| == |s.posters|
    decreases |run|
  {
    if run != [] {
      ReachedStep(c, s, run[0]);
      StepEases(c, s, run[0]);
      WorkersRemain(c, s, run[0]);
      assert forall i :: 0 <= i < |run[1..]| ==> run[1..][i] == run[i + 1];
      QuietingIsBounded(c, Apply(c, s, run[0]), run[1..]);
    }
  }

  lemma {:induction false} WorkersRemainInRun(c: Config, s: State, run: seq<Action>)
    requires IsRun(c, s, run)
    ensures |After(c, s, run).workers| == |s.workers| && |After(c, s, run).posters| == |s.posters|
    decreases |run|
  {
    if run != [] {
      WorkersRemain(c, s, run[0]);
      WorkersRemainInRun(c, Apply(c, s, run[0]), run[1..]);
    }
  }

  // After any run with at least one worker: the calls under way and the jobs posted take a
  // bounded number of steps, however they are scheduled, and when only a new call, the write of
  // _stop or a spurious wakeup could follow, the calls have returned and the jobs been run.
  lemma {:induction false} JobsRunWithoutJoin(c: Config, n: nat, m: nat, run: seq<Action>, more: seq<Action>)
    requires c.Valid() && n > 0 && IsRun(c, Init(n, m), run) && !After(c, Init(n, m), run).stop
    requires Quieting(c, After(c, Init(n, m), run), more)
    ensures var s := After(c, Init(n, m), run);
      && |more| <= Work(s)
      && (var end := After(c, s, more);
          (forall a :: Enabled(c, end, a) && Orderly(end, a) ==> Outside(a)) ==> Settled(end))
  {
    var s := After(c, Init(n, m), run);
    RunReaches(c, n, m, run);
    WorkersRemainInRun(c, Init(n, m), run);
    QuietingIsBounded(c, s, more);
    var end := After(c, s, more);
    if !Settled(end) {
      var a := NotSettledCanStep(c, end);
    }
  }

  lemma EasingStep(c: Config, s: State) returns (a: Action)
    requires c.Valid() && Reached(c, s) && |s.workers| > 0 && !Settled(s)
    ensures Enabled(c, s, a) && Orderly(s, a) && !Outside(a)
    ensures var next := Apply(c, s, a); Reached(c, next) && |next.workers| == |s.workers| && Work(next) < Work(s)
  {
    a := NotSettledCanStep(c, s);
    ReachedStep(c, s, a);
    StepEases(c, s, a);
    WorkersRemain(c, s, a);
  }

  lemma {:induction false} StepThenQuiet(c: Config, s: State, a: Action, tail: seq<Action>)
    requires Enabled(c, s, a) && Orderly(s, a) && !Outside(a) && Quieting(c, Apply(c, s, a), tail)
    ensures Quieting(c, s, [a] + tail) && After(c, s, [a] + tail) == After(c, Apply(c, s, a), tail)
    ensures PoolCalls.Calls([a] + tail) == PoolCalls.Calls(tail)
  {
    assert ([a] + tail)[1..] == tail;
  }

  lemma {:induction false} Settle(c: Config, s: State) returns (more: seq<Action>)
    requires c.Valid() && Reached(c, s) && |s.workers| > 0
    ensures Quieting(c, s, more) && Settled(After(c, s, more)) && PoolCalls.Calls(more) == []
    decreases Work(s)
  {
    if Settled(s) {
      more := [];
    } else {
      var a := EasingStep(c, s);
      var tail := Settle(c, Apply(c, s, a));
      StepThenQuiet(c, s, a, tail);
      more := [a] + tail;
    }
  }

  lemma {:induction false} CallsCompose(first: seq<Action>, second: seq<Action>)
    ensures PoolCalls.Calls(first + second) == PoolCalls.Calls(first) + PoolCalls.Calls(second)
    decreases |first|
  {
    if first == [] {
      assert first + second == second;
    } else {
      assert (first + second)[1..] == first[1..] + second;
      CallsCompose(first[1..], second);
    }
  }

  lemma {:induction false} CallThen(c: Config, s: State, a: Action, tail: seq<Action>)
    requires a.Call? && Enabled(c, s, a) && Orderly(s, a) && Quieting(c, Apply(c, s, a), tail)
    ensures OrderlyRun(c, s, [a] + tail) && NoSpurious([a] + tail)
    ensures After(c, s, [a] + tail) == After(c, Apply(c, s, a), tail)
    ensures PoolCalls.Calls([a] + tail) == [a.job] + PoolCalls.Calls(tail)
  {
    assert ([a] + tail)[1..] == tail;
  }

  lemma OneMoreJob(c: Config, s: State, job: Job) returns (more: seq<Action>)
    requires c.Valid() && Reached(c, s) && Settled(s) && |s.workers| > 0 && |s.posters| > 0 && |job| == c.slots
    ensures OrderlyRun(c, s, more) && NoSpurious(more) && PoolCalls.Calls(more) == [job]
    ensures var end := After(c, s, more);
      Reached(c, end) && Settled(end) && |end.workers| == |s.workers| && |end.posters| == |s.posters|
  {
    var a := Call(0, job);
    ReachedStep(c, s, a);
    WorkersRemain(c, s, a);
    var tail := Settle(c, Apply(c, s, a));
    QuietingIsBounded(c, Apply(c, s, a), tail);
    CallThen(c, s, a, tail);
    more := [a] + tail;
  }

  // A run from the start that posts these jobs and comes to rest.
  ghost predicate Serves(c: Config, n: nat, m: nat, run: seq<Action>, jobs: seq<Job>) {
    && OrderlyRun(c, Init(n, m), run) && NoSpurious(run) && PoolCalls.Calls(run) == jobs
    && var end := After(c, Init(n, m), run);
       Reached(c, end) && Settled(end) && |end.workers| == n && |end.posters| == m
  }

  lemma ServesOneMore(c: Config, n: nat, m: nat, first: seq<Action>, jobs: seq<Job>, job: Job)
      returns (run: seq<Action>)
    requires c.Valid() && n > 0 && m > 0 && Serves(c, n, m, first, jobs) && |job| == c.slots
    ensures Serves(c, n, m, run, jobs + [job])
  {
    var second := OneMoreJob(c, After(c, Init(n, m), first), job);
    OrderlyRunsCompose(c, Init(n, m), first, second);
    CallsCompose(first, second);
    run := first + second;
  }

  lemma {:induction false} ServesNone(c: Config, n: nat, m: nat) returns (run: seq<Action>)
    requires c.Valid() && n > 0
    ensures Serves(c, n, m, run, [])
  {
    RunReaches(c, n, m, []);
    run := Settle(c, Init(n, m));
    QuietingIsBounded(c, Init(n, m), run);
  }

  lemma {:induction false} ServesFirst(c: Config, n: nat, m: nat, jobs: seq<Job>, k: nat) returns (run: seq<Action>)
    requires c.Valid() && n > 0 && m > 0 && k <= |jobs|
    requires forall i :: 0 <= i < |jobs| ==> |jobs[i]| == c.slots
    ensures Serves(c, n, m, run, jobs[..k])
    decreases k
  {
    if k == 0 {
      assert jobs[..k] == [];
      run := ServesNone(c, n, m);
    } else {
      assert jobs[..k] == jobs[..k - 1] + [jobs[k - 1]];
      var first := ServesFirst(c, n, m, jobs, k - 1);
      run := ServesOneMore(c, n, m, first, jobs[..k - 1], jobs[k - 1]);
    }
  }

  // With a worker and a poster, any jobs whatever can be posted and run, in any number, with no
  // join and no spurious wakeup.
  lemma {:induction false} AnyJobsCanBeRun(c: Config, n: nat, m: nat, jobs: seq<Job>) returns (run: seq<Action>)
    requires c.Valid() && n > 0 && m > 0 && forall i :: 0 <= i < |jobs| ==> |jobs[i]| == c.slots
    ensures OrderlyRun(c, Init(n, m), run) && NoSpurious(run) && PoolCalls.Calls(run) == jobs
    ensures var end := After(c, Init(n, m), run);
      Settled(end) && !end.stop && end.finished == multiset(jobs)
  {
    run := ServesFirst(c, n, m, jobs, |jobs|);
    assert jobs[..|jobs|] == jobs;
    PoolCalls.CallsArePosted(c, n, m, run);
  }
}

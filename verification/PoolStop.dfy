// When writing _stop is safe. w_join writes _stop without the lock, so the write can land
// between a worker's test and its wait, or between the two reads of the loop guard. The
// first can lose the only wakeup, the second can leave posted jobs behind. StopSafe says
// exactly when neither can happen.

module PoolStop {
  import opened Sequences
  import opened Pool
  import opened PoolSafety
  import opened PoolRefinement
  import opened PoolWakeups
  import opened PoolShutdown
  import Dispatcher

  // ---- A safe write: shutdown is certain ----

  lemma {:induction false} ServingRun(c: Config, s: State, run: seq<Action>)
    requires c.Valid() && Core(c, s) && Calm(s) && IsRun(c, s, run) && !After(c, s, run).stop
    ensures Core(c, After(c, s, run)) && Calm(After(c, s, run))
    decreases |run|
  {
    if run != [] {
      CoreStep(c, s, run[0]);
      if run[0].WriteStop? {
        StopIsForever(c, Apply(c, s, run[0]), run[1..]);
      } else {
        CalmStep(c, s, run[0]);
        ServingRun(c, Apply(c, s, run[0]), run[1..]);
      }
    }
  }

  lemma {:induction false} StopIsForever(c: Config, s: State, run: seq<Action>)
    requires s.stop && IsRun(c, s, run)
    ensures After(c, s, run).stop
    decreases |run|
  {
    if run != [] {
      StopStays(c, s, run[0]);
      StopIsForever(c, Apply(c, s, run[0]), run[1..]);
    }
  }

  lemma StopStays(c: Config, s: State, a: Action)
    requires s.stop && Enabled(c, s, a)
    ensures Apply(c, s, a).stop
  {
    if MovesOneWorker(a) { WorkerFrame(c, s, a); }
    if MovesOnePoster(a) { PosterFrame(c, s, a); }
  }

  lemma InitServes(c: Config, n: nat, m: nat)
    ensures Core(c, Init(n, m)) && Calm(Init(n, m))
  {
    InitRefines(c, n, m);
  }

  lemma SafeStopShuts(c: Config, s: State)
    requires c.Valid() && Core(c, s) && Calm(s) && Enabled(c, s, WriteStop) && Orderly(s, WriteStop)
    requires StopSafe(s)
    ensures Shutting(c, Apply(c, s, WriteStop))
  {
    var t := Apply(c, s, WriteStop);
    CoreStep(c, s, WriteStop);
    if Total(s.workers, Parks) > 0 {
      var p := TotalWitness(s.workers, Parks);
      assert s.workers[p].ParkReady?;
      var i :| 0 <= i < |s.workers| && (s.workers[i].WantLock? || s.workers[i].Waiting?);
      TotalAtLeast(s.workers, i, Locks);
      TotalAtLeast(s.workers, i, Waits);
    }
  }

  // ---- An unsafe write: a worker waits for a signal that nobody will send ----

  ghost predicate Stranded(s: State) {
    && s.stop && PostersIdle(s) && s.lock.Free? && s.queue == []
    && (s.joiner.Joining? || s.joiner.Joined?)
    && (exists i :: 0 <= i < |s.workers| && s.workers[i].Waiting?)
    && (forall i :: 0 <= i < |s.workers| ==>
          var w := s.workers[i]; w.Waiting? || w.AtGuard? || w.SawEmpty? || w.Running? || w.Exited?)
  }

  lemma StrandedStep(c: Config, s: State, a: Action)
    requires Stranded(s) && Enabled(c, s, a) && Orderly(s, a) && !a.SpuriousWakeup?
    ensures Stranded(Apply(c, s, a))
  {
    var i :| 0 <= i < |s.workers| && s.workers[i].Waiting?;
    match a
    case GuardReadsQueue(w, _) => assert Apply(c, s, a).workers[i].Waiting?;
    case GuardReadsStop(w) => assert Apply(c, s, a).workers[i].Waiting?;
    case Finish(w) => assert Apply(c, s, a).workers[i].Waiting?;
    case _ =>
  }

  lemma {:induction false} StrandedForever(c: Config, s: State, run: seq<Action>)
    requires Stranded(s) && OrderlyRun(c, s, run) && NoSpurious(run)
    ensures Stranded(After(c, s, run))
    decreases |run|
  {
    if run != [] {
      StrandedStep(c, s, run[0]);
      StrandedForever(c, Apply(c, s, run[0]), run[1..]);
    }
  }

  // Worker i is past its test, and nobody that could wake it later is left.
  ghost predicate AboutToStrand(s: State, i: nat) {
    && s.stop && PostersIdle(s) && s.queue == [] && s.joiner.Joining?
    && i < |s.workers| && s.workers[i].ParkReady?
    && (forall j :: 0 <= j < |s.workers| && j != i ==>
          var w := s.workers[j]; w.AtGuard? || w.SawEmpty? || w.OwesRun? || w.Running? || w.Exited?)
  }

  lemma {:induction false} Strand(c: Config, s: State, i: nat) returns (more: seq<Action>)
    requires AboutToStrand(s, i)
    ensures OrderlyRun(c, s, more) && Stranded(After(c, s, more))
    decreases Total(s.workers, Owes)
  {
    if j: nat :| j < |s.workers| && s.workers[j].OwesRun? {
      // Its signal finds nobody waiting.
      var a := Signal(j, None);
      TotalUpdate(s.workers, j, Running(s.workers[j].job), Owes);
      var tail := Strand(c, Apply(c, s, a), i);
      more := [a] + tail;
      assert more[1..] == tail;
    } else {
      more := [Park(i)];
      assert more[1..] == [];
      assert Apply(c, s, Park(i)).workers[i].Waiting?;
    }
  }

  // ---- An unsafe write: every worker leaves through the guard, past queued jobs ----

  ghost predicate LeftBehind(s: State) {
    && s.stop && PostersIdle(s) && !s.joiner.NotJoining? && s.queue != []
    && (forall i :: 0 <= i < |s.workers| ==> s.workers[i].SawEmpty? || s.workers[i].Exited?)
  }

  ghost predicate Abandoned(c: Config, s: State) {
    Core(c, s) && LeftBehind(s)
  }

  lemma LeftBehindStep(c: Config, s: State, a: Action)
    requires LeftBehind(s) && Enabled(c, s, a)
    requires a.GuardReadsStop? || a.StopSignal? || a.Reap? || a.ReturnFromJoin?
    ensures LeftBehind(Apply(c, s, a))
  {
  }

  lemma OnlyExits(c: Config, s: State, a: Action)
    requires LeftBehind(s) && Enabled(c, s, a) && Orderly(s, a)
    ensures a.GuardReadsStop? || a.StopSignal? || a.Reap? || a.ReturnFromJoin?
  {
  }

  lemma AbandonedStep(c: Config, s: State, a: Action)
    requires c.Valid() && Abandoned(c, s) && Enabled(c, s, a) && Orderly(s, a)
    ensures Abandoned(c, Apply(c, s, a))
  {
    CoreStep(c, s, a);
    OnlyExits(c, s, a);
    LeftBehindStep(c, s, a);
  }

  lemma {:induction false} AbandonedForever(c: Config, s: State, run: seq<Action>)
    requires c.Valid() && Abandoned(c, s) && OrderlyRun(c, s, run)
    ensures Abandoned(c, After(c, s, run))
    decreases |run|
  {
    if run != [] {
      AbandonedStep(c, s, run[0]);
      AbandonedForever(c, Apply(c, s, run[0]), run[1..]);
    }
  }

  lemma AbandonedIsNotComplete(c: Config, s: State)
    requires c.Valid() && Abandoned(c, s)
    ensures !Complete(s)
  {
    WholeJobsWhenFree(c, s);
    assert Pending(s) != [];
    Dispatcher.ConservesAll(Abstract(s));
    assert |multiset(s.posted)| == |Pending(s)| + |InFlight(s)| + |s.finished|;
  }

  // ---- The exact condition ----

  ghost predicate CanComplete(c: Config, s: State) {
    exists rest :: OrderlyRun(c, s, rest) && NoSpurious(rest) && Complete(After(c, s, rest))
  }

  // However the threads are scheduled, w_join can still return with every job run, and
  // without help from spurious wakeups.
  ghost predicate AlwaysCompletes(c: Config, s: State) {
    forall more :: OrderlyRun(c, s, more) ==> CanComplete(c, After(c, s, more))
  }

  // Worker i is past its test and nobody is queued for the lock or waiting.
  ghost predicate LoneParker(s: State, i: nat) {
    && i < |s.workers| && s.workers[i].ParkReady?
    && (forall j :: 0 <= j < |s.workers| ==> !s.workers[j].WantLock? && !s.workers[j].Waiting?)
  }

  lemma LoneParkerStrands(c: Config, s: State, i: nat) returns (more: seq<Action>)
    requires c.Valid() && Ordered(c, s) && Calm(s) && PostersIdle(s) && LoneParker(s, i)
    ensures Enabled(c, s, WriteStop) && OrderlyRun(c, Apply(c, s, WriteStop), more)
    ensures Stranded(After(c, Apply(c, s, WriteStop), more))
  {
    assert WorkerHolds(s.workers[i]) && WorkerOk(c, s, s.workers[i]);
    assert forall j :: 0 <= j < |s.workers| && j != i ==> !WorkerHolds(s.workers[j]);
    var t := Apply(c, s, WriteStop);
    var a := StopSignal(None);
    var tail := Strand(c, Apply(c, t, a), i);
    more := [a] + tail;
    assert more[1..] == tail;
  }

  lemma NobodyParksAlone(c: Config, s: State)
    requires c.Valid() && Core(c, s) && Calm(s) && Enabled(c, s, WriteStop) && Orderly(s, WriteStop)
    requires !StopSafe(s) && forall i: nat :: !LoneParker(s, i)
    ensures Abandoned(c, Apply(c, s, WriteStop))
  {
    CoreStep(c, s, WriteStop);
    assert forall i: nat :: i < |s.workers| && s.workers[i].ParkReady? ==> !LoneParker(s, i);
    assert s.queue != [] && forall i :: 0 <= i < |s.workers| ==> s.workers[i].SawEmpty?;
  }

  lemma UnsafeStop(c: Config, s: State) returns (more: seq<Action>)
    requires c.Valid() && Core(c, s) && Calm(s) && Enabled(c, s, WriteStop) && Orderly(s, WriteStop)
    requires !StopSafe(s)
    ensures OrderlyRun(c, Apply(c, s, WriteStop), more)
    ensures var end := After(c, Apply(c, s, WriteStop), more); Stranded(end) || Abandoned(c, end)
  {
    if i: nat :| LoneParker(s, i) {
      more := LoneParkerStrands(c, s, i);
    } else {
      NobodyParksAlone(c, s);
      more := [];
    }
  }

  lemma HopelessCannotComplete(c: Config, s: State)
    requires c.Valid() && (Stranded(s) || Abandoned(c, s))
    ensures !CanComplete(c, s)
  {
    forall rest | OrderlyRun(c, s, rest) && NoSpurious(rest) ensures !Complete(After(c, s, rest)) {
      if Stranded(s) {
        StrandedForever(c, s, rest);
      } else {
        AbandonedForever(c, s, rest);
        AbandonedIsNotComplete(c, After(c, s, rest));
      }
    }
  }

  lemma SafeStopCompletes(c: Config, t: State)
    requires c.Valid() && Shutting(c, t)
    ensures AlwaysCompletes(c, t)
  {
    forall more | OrderlyRun(c, t, more) ensures CanComplete(c, After(c, t, more)) {
      ShuttingRun(c, t, more);
      var rest := CompletionExists(c, After(c, t, more));
    }
  }

  // For any number of workers and posters, after any run: the join is certain to complete
  // with every posted job run if and only if _stop is written in a StopSafe state.
  lemma {:induction false} ShutdownIffStopSafe(c: Config, n: nat, m: nat, run: seq<Action>)
    requires c.Valid() && IsRun(c, Init(n, m), run)
    requires var s := After(c, Init(n, m), run); !s.stop && Enabled(c, s, WriteStop) && Orderly(s, WriteStop)
    ensures var s := After(c, Init(n, m), run);
      StopSafe(s) <==> AlwaysCompletes(c, Apply(c, s, WriteStop))
  {
    var s := After(c, Init(n, m), run);
    InitServes(c, n, m);
    ServingRun(c, Init(n, m), run);
    if StopSafe(s) {
      SafeStopShuts(c, s);
      SafeStopCompletes(c, Apply(c, s, WriteStop));
    } else {
      var more := UnsafeStop(c, s);
      HopelessCannotComplete(c, After(c, Apply(c, s, WriteStop), more));
    }
  }

  // Every run after a safe write is bounded, and one that can go no further without a
  // spurious wakeup has joined all workers and run every job.
  lemma {:induction false} ShutdownTerminates(c: Config, n: nat, m: nat, run: seq<Action>, more: seq<Action>)
    requires c.Valid() && IsRun(c, Init(n, m), run)
    requires var s := After(c, Init(n, m), run);
      && !s.stop && Enabled(c, s, WriteStop) && Orderly(s, WriteStop) && StopSafe(s)
      && OrderlyRun(c, Apply(c, s, WriteStop), more)
    ensures var t := Apply(c, After(c, Init(n, m), run), WriteStop);
      && |more| <= Measure(t)
      && (var end := After(c, t, more);
          (forall a :: Enabled(c, end, a) && Orderly(end, a) ==> a.SpuriousWakeup?) ==> Complete(end))
  {
    var s := After(c, Init(n, m), run);
    InitServes(c, n, m);
    ServingRun(c, Init(n, m), run);
    SafeStopShuts(c, s);
    var t := Apply(c, s, WriteStop);
    ShuttingRun(c, t, more);
    var end := After(c, t, more);
    if end.joiner.Joined? {
      JoinedMeansComplete(c, end);
    } else {
      var a := NeverStuck(c, end);
    }
  }

  // ---- Both races happen ----

  ghost predicate Reaches(c: Config, s: State, t: State) {
    exists run :: OrderlyRun(c, s, run) && After(c, s, run) == t
  }

  lemma ReachesItself(c: Config, s: State)
    ensures Reaches(c, s, s)
  {
    assert OrderlyRun(c, s, []);
  }

  lemma ReachesNext(c: Config, s: State, t: State, a: Action)
    requires Reaches(c, s, t) && Enabled(c, t, a) && Orderly(t, a)
    ensures Reaches(c, s, Apply(c, t, a))
  {
    var run :| OrderlyRun(c, s, run) && After(c, s, run) == t;
    assert [a][1..] == [];
    OrderlyRunsCompose(c, s, run, [a]);
  }

  ghost function Alone(worker: Worker, lock: Lock): State {
    Init(1, 0).(workers := [worker], lock := lock)
  }

  lemma AloneWantsLock(c: Config)
    ensures Reaches(c, Init(1, 0), Alone(WantLock, Free))
  {
    var s := Init(1, 0);
    ReachesItself(c, s);
    ReachesNext(c, s, s, GuardReadsQueue(0, true));
    ReachesNext(c, s, Alone(SawEmpty, Free), GuardReadsStop(0));
  }

  // One worker tests the queue and _stop; w_join could now write _stop and signal.
  lemma TestBeforeStopIsUnsafe(c: Config) returns (t: State)
    ensures Reaches(c, Init(1, 0), t) && t.posted == []
    ensures Enabled(c, t, WriteStop) && Orderly(t, WriteStop) && !StopSafe(t)
  {
    AloneWantsLock(c);
    ReachesNext(c, Init(1, 0), Alone(WantLock, Free), Lock(0));
    ReachesNext(c, Init(1, 0), Alone(Testing, HeldByWorker(0)), Test(0));
    t := Alone(ParkReady, HeldByWorker(0));
    assert t.workers[0].ParkReady?;
  }

  // The pool of one worker, which has read an empty queue, and one poster.
  ghost function Caught(poster: Poster, lock: Lock, queue: seq<Word>, posted: seq<Job>): State {
    Init(1, 1).(workers := [SawEmpty], posters := [poster], lock := lock, queue := queue, posted := posted)
  }

  lemma CaughtBegins(c: Config, job: Job)
    requires c.Valid() && |job| == c.slots
    ensures Reaches(c, Init(1, 1), Caught(Pushing(job, 0), HeldByPoster(0), [], []))
  {
    var s := Init(1, 1);
    ReachesItself(c, s);
    ReachesNext(c, s, s, GuardReadsQueue(0, true));
    assert s.posters == [Idle];
    ReachesNext(c, s, Caught(Idle, Free, [], []), Call(0, job));
    ReachesNext(c, s, Caught(Calling(job), Free, [], []), PosterLock(0));
  }

  lemma {:induction false} CaughtPushes(c: Config, job: Job, k: nat)
    requires c.Valid() && k < |job| == c.slots
    ensures Reaches(c, Init(1, 1), Caught(Pushing(job, k), HeldByPoster(0), job[..k], []))
    decreases k
  {
    if k == 0 {
      CaughtBegins(c, job);
    } else {
      CaughtPushes(c, job, k - 1);
      assert job[..k] == job[..k - 1] + [job[k - 1]];
      ReachesNext(c, Init(1, 1), Caught(Pushing(job, k - 1), HeldByPoster(0), job[..k - 1], []), Push(0));
    }
  }

  lemma CaughtPosts(c: Config, job: Job)
    requires c.Valid() && |job| == c.slots
    ensures Reaches(c, Init(1, 1), Caught(Pushed, HeldByPoster(0), job, [job]))
  {
    var k := |job| - 1;
    CaughtPushes(c, job, k);
    assert job == job[..k] + [job[k]];
    ReachesNext(c, Init(1, 1), Caught(Pushing(job, k), HeldByPoster(0), job[..k], []), Push(0));
  }

  lemma CaughtReturns(c: Config, job: Job)
    requires c.Valid() && |job| == c.slots
    ensures Reaches(c, Init(1, 1), Caught(Idle, Free, job, [job]))
  {
    var s := Init(1, 1);
    CaughtPosts(c, job);
    if c.notifyInside {
      ReachesNext(c, s, Caught(Pushed, HeldByPoster(0), job, [job]), PosterSignal(0, None));
      ReachesNext(c, s, Caught(Notified, HeldByPoster(0), job, [job]), PosterUnlock(0));
    } else {
      ReachesNext(c, s, Caught(Pushed, HeldByPoster(0), job, [job]), PosterUnlock(0));
      ReachesNext(c, s, Caught(OwesSignal, Free, job, [job]), PosterSignal(0, None));
    }
  }

  // One worker reads an empty queue in the guard, a job is posted, and join is called. This
  // happens in both pools.
  lemma PostBetweenGuardReadsIsUnsafe(c: Config, job: Job) returns (t: State)
    requires c.Valid() && |job| == c.slots
    ensures Reaches(c, Init(1, 1), t) && t.posted == [job] && t.taken == []
    ensures Enabled(c, t, WriteStop) && Orderly(t, WriteStop) && !StopSafe(t)
  {
    CaughtReturns(c, job);
    t := Caught(Idle, Free, job, [job]);
  }

  lemma PostBetweenGuardReadsInThreadpool(f: Word) returns (t: State)
    ensures Reaches(CPP_THREADPOOL, Init(1, 1), t) && t.posted == [[f]]
    ensures Enabled(CPP_THREADPOOL, t, WriteStop) && Orderly(t, WriteStop) && !StopSafe(t)
  {
    t := PostBetweenGuardReadsIsUnsafe(CPP_THREADPOOL, [f]);
  }

  // ---- What a spurious wakeup can do ----

  // Nothing but a spurious wakeup helps a worker that missed the signal, and one is enough.
  lemma SpuriousWakeupRescues(c: Config, s: State) returns (rest: seq<Action>)
    requires c.Valid() && Core(c, s) && JoinerOk(s) && Stranded(s)
    ensures !CanComplete(c, s)
    ensures OrderlyRun(c, s, rest) && Complete(After(c, s, rest))
  {
    HopelessCannotComplete(c, s);
    var w :| 0 <= w < |s.workers| && s.workers[w].Waiting?;
    var a := SpuriousWakeup(w);
    CoreStep(c, s, a);
    StoppingStep(c, s, a);
    var woken := Apply(c, s, a);
    TotalZero(woken.workers, Parks);
    TotalAtLeast(woken.workers, w, Locks);
    var tail := CompletionExists(c, woken);
    rest := [a] + tail;
    assert rest[1..] == tail;
  }

  // ---- A remedy ----

  // Written with the lock held by nobody, and nothing queued, _stop is safe. So it is when the
  // joiner takes the lock for the write and finds the queue empty.
  lemma {:induction false} WriteWithLockFreeIsSafe(c: Config, n: nat, m: nat, run: seq<Action>)
    requires c.Valid() && IsRun(c, Init(n, m), run)
    requires var s := After(c, Init(n, m), run); s.lock.Free? && s.queue == []
    ensures StopSafe(After(c, Init(n, m), run))
  {
    InitRefines(c, n, m);
    RunRefines(c, Init(n, m), run);
    var s := After(c, Init(n, m), run);
    assert forall i :: 0 <= i < |s.workers| ==> !WorkerHolds(s.workers[i]);
  }
}

// Shutdown by a single signal. Assumed of the program around the pool: one thread joins,
// every call of post has returned before it joins, nothing is posted afterwards, jobs
// return, and each read of the queue size or of _stop sees the latest write.

module PoolShutdown {
  import opened Sequences
  import opened Pool
  import opened PoolSafety
  import opened PoolRefinement
  import opened PoolWakeups
  import Dispatcher

  ghost predicate PostersIdle(s: State) {
    forall p :: 0 <= p < |s.posters| ==> s.posters[p].Idle?
  }

  // What the surrounding program is assumed to do.
  ghost predicate Orderly(s: State, a: Action) {
    match a
    case GuardReadsQueue(_, empty) => empty <==> s.queue == []
    case Call(_, _) => !s.stop
    case WriteStop => PostersIdle(s)
    case _ => true
  }

  ghost predicate AllOrderly(c: Config, s: State, run: seq<Action>)
    requires IsRun(c, s, run)
    decreases |run|
  {
    run == [] || (Orderly(s, run[0]) && AllOrderly(c, Apply(c, s, run[0]), run[1..]))
  }

  ghost predicate OrderlyRun(c: Config, s: State, run: seq<Action>) {
    IsRun(c, s, run) && AllOrderly(c, s, run)
  }

  ghost predicate NoSpurious(run: seq<Action>) {
    forall i :: 0 <= i < |run| ==> !run[i].SpuriousWakeup?
  }

  lemma {:induction false} OrderlyRunsCompose(c: Config, s: State, first: seq<Action>, second: seq<Action>)
    requires OrderlyRun(c, s, first) && OrderlyRun(c, After(c, s, first), second)
    ensures OrderlyRun(c, s, first + second)
    ensures After(c, s, first + second) == After(c, After(c, s, first), second)
    decreases |first|
  {
    RunsCompose(c, s, first, second);
    if first == [] {
      assert first + second == second;
    } else {
      assert (first + second)[1..] == first[1..] + second;
      OrderlyRunsCompose(c, Apply(c, s, first[0]), first[1..], second);
    }
  }

  // ---- Before _stop is written ----

  function Gone(w: Worker): bool { w.Leaving? || w.OwesExit? || w.Exited? }

  ghost predicate Core(c: Config, s: State) {
    Ordered(c, s) && Dispatcher.Conserves(Abstract(s))
  }

  ghost predicate Calm(s: State) {
    && !s.stop && s.joiner.NotJoining?
    && (forall i :: 0 <= i < |s.workers| ==> !Gone(s.workers[i]))
  }

  // ---- After _stop is written ----

  function Parks(w: Worker): nat { if w.ParkReady? then 1 else 0 }
  function Locks(w: Worker): nat { if w.WantLock? then 1 else 0 }
  function Inside(w: Worker): nat { if w.Testing? || w.Taking? || w.Leaving? then 1 else 0 }

  // Whoever waits, or is past the test that will make it wait, has a wakeup coming: some
  // other thread is bound to signal after it waits.
  ghost predicate WakeupComing(s: State) {
    var owed := Total(s.workers, Owes) + JoinerOwes(s);
    if Total(s.workers, Parks) > 0
    then Total(s.workers, Locks) > 0 || (Total(s.workers, Waits) > 0 && owed > 0)
    else Total(s.workers, Waits) > 0 ==> Total(s.workers, Locks) + owed + Total(s.workers, Inside) > 0
  }

  // Will look at the queue again, or is about to take from it.
  predicate Live(w: Worker) { !w.SawEmpty? && !Gone(w) }

  ghost predicate JobsWillRun(s: State) {
    s.queue != [] ==> exists i :: 0 <= i < |s.workers| && Live(s.workers[i])
  }

  ghost predicate JoinerOk(s: State) {
    match s.joiner
    case NotJoining => false
    case OwesStopSignal => true
    case Joining(r) => r <= |s.workers| && forall i :: 0 <= i < r ==> s.workers[i].Exited?
    case Joined => forall i :: 0 <= i < |s.workers| ==> s.workers[i].Exited?
  }

  ghost predicate Stopping(s: State) {
    s.stop && PostersIdle(s) && JoinerOk(s)
  }

  ghost predicate Shutting(c: Config, s: State) {
    Core(c, s) && Stopping(s) && WakeupComing(s) && JobsWillRun(s)
  }

  // Everything that was posted has run, every worker has returned, and so has w_join.
  ghost predicate Complete(s: State) {
    && s.joiner.Joined?
    && (forall i :: 0 <= i < |s.workers| ==> s.workers[i].Exited?)
    && s.finished == multiset(s.posted)
  }

  // The moment at which _stop is written is harmless exactly when both hold.
  ghost predicate StopSafe(s: State) {
    && ((exists i :: 0 <= i < |s.workers| && s.workers[i].ParkReady?) ==>
          exists i :: 0 <= i < |s.workers| && (s.workers[i].WantLock? || s.workers[i].Waiting?))
    && (s.queue != [] ==> exists i :: 0 <= i < |s.workers| && !s.workers[i].SawEmpty?)
  }

  // ---- Stopping is kept ----

  lemma CoreStep(c: Config, s: State, a: Action)
    requires c.Valid() && Core(c, s) && Enabled(c, s, a)
    ensures Core(c, Apply(c, s, a))
  {
    OrderStep(c, s, a);
    StepRefines(c, s, a);
    Dispatcher.NextConserves(Abstract(s), EventOf(c, s, a), Abstract(Apply(c, s, a)));
  }

  lemma WorkersStay(c: Config, s: State, a: Action)
    requires !s.stop && Enabled(c, s, a) && MovesOneWorker(a) && !Gone(s.workers[a.w])
    ensures |Apply(c, s, a).workers| == |s.workers| && !Gone(Apply(c, s, a).workers[a.w])
  {
    WorkerFrame(c, s, a);
    match a
    case Test(_) =>
    case Pop(_) =>
    case _ =>
  }

  lemma SignalKeepsWorkers(c: Config, s: State, a: Action)
    requires Enabled(c, s, a) && (a.Signal? || a.PosterSignal? || a.StopSignal?)
    ensures var s' := Apply(c, s, a);
      && |s'.workers| == |s.workers| && s'.posted == s.posted && s'.stop == s.stop && s'.queue == s.queue
      && (forall i :: 0 <= i < |s.workers| && s.workers[i].Exited? ==> s'.workers[i].Exited?)
      && (forall i :: 0 <= i < |s.workers| && Gone(s'.workers[i]) ==> Gone(s.workers[i]))
      && (a.StopSignal? ==> s'.joiner == Joining(0)) && (!a.StopSignal? ==> s'.joiner == s.joiner)
      && (!a.PosterSignal? ==> s'.posters == s.posters)
  {
  }

  lemma CalmStep(c: Config, s: State, a: Action)
    requires Calm(s) && Enabled(c, s, a) && !a.WriteStop?
    ensures Calm(Apply(c, s, a))
  {
    if MovesOneWorker(a) {
      WorkerFrame(c, s, a);
      WorkersStay(c, s, a);
    } else if MovesOnePoster(a) {
      PosterFrame(c, s, a);
    } else {
      SignalKeepsWorkers(c, s, a);
    }
  }

  // Only workers and the joiner still move.
  lemma WhoMoves(c: Config, s: State, a: Action)
    requires Stopping(s) && Enabled(c, s, a) && Orderly(s, a)
    ensures MovesOneWorker(a) || a.Signal? || a.StopSignal? || a.Reap? || a.ReturnFromJoin?
  {
  }

  lemma ExitedWorkersStay(c: Config, s: State, a: Action)
    requires Enabled(c, s, a) && MovesOneWorker(a)
    ensures !s.workers[a.w].Exited?
  {
  }

  lemma JoinerStep(c: Config, s: State, a: Action)
    requires JoinerOk(s) && Enabled(c, s, a) && (a.Reap? || a.ReturnFromJoin?)
    ensures JoinerOk(Apply(c, s, a))
  {
  }

  lemma StoppingStep(c: Config, s: State, a: Action)
    requires Stopping(s) && Enabled(c, s, a) && Orderly(s, a)
    ensures Stopping(Apply(c, s, a))
  {
    WhoMoves(c, s, a);
    if MovesOneWorker(a) {
      WorkerFrame(c, s, a);
      ExitedWorkersStay(c, s, a);
    } else if a.Signal? || a.StopSignal? {
      SignalKeepsWorkers(c, s, a);
    } else {
      JoinerStep(c, s, a);
    }
  }

  // ---- The wakeup that is coming is kept ----

  lemma CountAll(ws: seq<Worker>, w: nat, pc: Worker)
    requires w < |ws|
    ensures Total(ws[w := pc], Waits) + Waits(ws[w]) == Total(ws, Waits) + Waits(pc)
    ensures Total(ws[w := pc], Owes) + Owes(ws[w]) == Total(ws, Owes) + Owes(pc)
    ensures Total(ws[w := pc], Parks) + Parks(ws[w]) == Total(ws, Parks) + Parks(pc)
    ensures Total(ws[w := pc], Locks) + Locks(ws[w]) == Total(ws, Locks) + Locks(pc)
    ensures Total(ws[w := pc], Inside) + Inside(ws[w]) == Total(ws, Inside) + Inside(pc)
  {
    CountMove(ws, w, pc);
    TotalUpdate(ws, w, pc, Parks);
    TotalUpdate(ws, w, pc, Locks);
    TotalUpdate(ws, w, pc, Inside);
  }

  lemma ParkedHoldsLock(s: State)
    requires LockIsExclusive(s) && Total(s.workers, Parks) > 0
    ensures s.lock.HeldByWorker? && s.lock.w < |s.workers| && s.workers[s.lock.w].ParkReady?
  {
    var i := TotalWitness(s.workers, Parks);
    assert WorkerHolds(s.workers[i]);
  }

  lemma WakeupWorkerStep(c: Config, s: State, a: Action)
    requires LockIsExclusive(s) && s.stop && WakeupComing(s) && Enabled(c, s, a) && MovesOneWorker(a)
    ensures WakeupComing(Apply(c, s, a))
  {
    WorkerFrame(c, s, a);
    CountAll(s.workers, a.w, Apply(c, s, a).workers[a.w]);
    if Total(s.workers, Parks) > 0 {
      ParkedHoldsLock(s);
      assert WorkerHolds(s.workers[a.w]) ==> s.workers[a.w].ParkReady?;
    }
  }

  // The signal reaches a waiter, or nobody waits.
  lemma WakeupArrives(s: State, target: Option<nat>)
    requires SignalTarget(s, target)
    ensures var s' := s.Wake(target);
      && Total(s'.workers, Parks) == Total(s.workers, Parks) && Total(s'.workers, Owes) == Total(s.workers, Owes)
      && Total(s'.workers, Inside) == Total(s.workers, Inside) && JoinerOwes(s') == JoinerOwes(s)
      && (if target.Some? then Total(s'.workers, Locks) == Total(s.workers, Locks) + 1
          else Total(s'.workers, Waits) == 0 && Total(s'.workers, Locks) == Total(s.workers, Locks))
  {
    match target
    case Some(t) => CountAll(s.workers, t, WantLock);
    case None => TotalZero(s.workers, Waits);
  }

  // Before it arrives, the thread that owed it has moved on.
  lemma SignalIsPaid(c: Config, s: State, a: Action)
    requires Enabled(c, s, a) && (a.Signal? || a.StopSignal?)
    ensures var mid := BeforeWake(c, s, a);
      && SignalTarget(mid, a.target)
      && Total(mid.workers, Parks) == Total(s.workers, Parks) && Total(mid.workers, Waits) == Total(s.workers, Waits)
      && Total(mid.workers, Locks) == Total(s.workers, Locks) && Total(mid.workers, Inside) == Total(s.workers, Inside)
  {
    if a.Signal? { CountAll(s.workers, a.w, BeforeWake(c, s, a).workers[a.w]); }
  }

  lemma WakeupSignalStep(c: Config, s: State, a: Action)
    requires WakeupComing(s) && Enabled(c, s, a) && (a.Signal? || a.StopSignal?)
    ensures WakeupComing(Apply(c, s, a))
  {
    SignalIsPaid(c, s, a);
    WakeupArrives(BeforeWake(c, s, a), a.target);
  }

  lemma MovingStaysLive(c: Config, s: State, a: Action)
    requires Enabled(c, s, a) && Orderly(s, a) && s.stop && MovesOneWorker(a) && Apply(c, s, a).queue != []
    requires a.w < |s.workers| && Live(s.workers[a.w])
    ensures a.w < |Apply(c, s, a).workers| && Live(Apply(c, s, a).workers[a.w])
  {
    match a
    case GuardReadsQueue(_, _) =>
    case Test(_) =>
    case _ =>
  }

  lemma LiveStays(c: Config, s: State, a: Action, i: nat)
    requires Enabled(c, s, a) && Orderly(s, a) && s.stop && Apply(c, s, a).queue != []
    requires i < |s.workers| && Live(s.workers[i])
    requires MovesOneWorker(a) || a.Signal? || a.StopSignal? || a.Reap? || a.ReturnFromJoin?
    ensures i < |Apply(c, s, a).workers| && Live(Apply(c, s, a).workers[i])
  {
    if MovesOneWorker(a) {
      WorkerFrame(c, s, a);
      if a.w == i { MovingStaysLive(c, s, a); }
    }
  }

  lemma JobsWillRunStep(c: Config, s: State, a: Action)
    requires c.Valid() && Ordered(c, s) && Stopping(s) && JobsWillRun(s) && Enabled(c, s, a) && Orderly(s, a)
    ensures JobsWillRun(Apply(c, s, a))
  {
    WhoMoves(c, s, a);
    if Apply(c, s, a).queue != [] {
      assert s.queue != [];
      var i :| 0 <= i < |s.workers| && Live(s.workers[i]);
      LiveStays(c, s, a, i);
    }
  }

  lemma ShuttingStep(c: Config, s: State, a: Action)
    requires c.Valid() && Shutting(c, s) && Enabled(c, s, a) && Orderly(s, a)
    ensures Shutting(c, Apply(c, s, a))
  {
    CoreStep(c, s, a);
    StoppingStep(c, s, a);
    JobsWillRunStep(c, s, a);
    WhoMoves(c, s, a);
    if MovesOneWorker(a) {
      WakeupWorkerStep(c, s, a);
    } else if a.Signal? || a.StopSignal? {
      WakeupSignalStep(c, s, a);
    }
  }

  // ---- A measure that every step lowers ----

  function Rank(w: Worker): nat {
    match w
    case Exited => 0
    case OwesExit => 1
    case Leaving => 2
    case Taking(got) => 3 + 8 * |got|
    case Testing => 4
    case WantLock => 5
    case Waiting => 6
    case SawEmpty => 6
    case ParkReady => 7
    case AtGuard => 7
    case Running(_) => 8
    case OwesRun(_) => 9
  }

  ghost function JoinerRank(s: State): nat {
    match s.joiner
    case NotJoining => 0
    case OwesStopSignal => |s.workers| + 2
    case Joining(r) => if r <= |s.workers| then |s.workers| - r + 1 else 0
    case Joined => 0
  }

  ghost function Measure(s: State): nat {
    Total(s.workers, Rank) + 9 * |s.queue| + JoinerRank(s)
  }

  ghost predicate RankFalls(c: Config, s: State, a: Action)
    requires Enabled(c, s, a) && MovesOneWorker(a)
  {
    var s' := Apply(c, s, a);
    && |s'.workers| == |s.workers|
    && Rank(s'.workers[a.w]) + 9 * |s'.queue| < Rank(s.workers[a.w]) + 9 * |s.queue|
  }

  lemma PopFalls(c: Config, s: State, a: Action)
    requires c.Valid() && Ordered(c, s) && Enabled(c, s, a) && a.Pop?
    ensures RankFalls(c, s, a)
  {
    PopFindsAWord(c, s, a.w);
  }

  lemma UnlockFalls(c: Config, s: State, a: Action)
    requires c.Valid() && Enabled(c, s, a) && a.UnlockToRun?
    ensures RankFalls(c, s, a)
  {
  }

  lemma OtherFalls(c: Config, s: State, a: Action)
    requires s.stop && Enabled(c, s, a) && MovesOneWorker(a) && !a.Pop? && !a.UnlockToRun?
    ensures RankFalls(c, s, a)
  {
  }

  lemma WorkerStepFalls(c: Config, s: State, a: Action)
    requires c.Valid() && Ordered(c, s) && s.stop && Enabled(c, s, a) && MovesOneWorker(a)
    ensures Measure(Apply(c, s, a)) < Measure(s)
  {
    WorkerFrame(c, s, a);
    if a.Pop? {
      PopFalls(c, s, a);
    } else if a.UnlockToRun? {
      UnlockFalls(c, s, a);
    } else {
      OtherFalls(c, s, a);
    }
    TotalUpdate(s.workers, a.w, Apply(c, s, a).workers[a.w], Rank);
  }

  lemma WakeFalls(s: State, target: Option<nat>)
    requires SignalTarget(s, target)
    ensures Measure(s.Wake(target)) <= Measure(s)
  {
    if target.Some? { TotalUpdate(s.workers, target.value, WantLock, Rank); }
  }

  // The signalling thread itself goes on.
  lemma SignallerFalls(c: Config, s: State, a: Action)
    requires Enabled(c, s, a) && (a.Signal? || a.StopSignal?)
    ensures Measure(BeforeWake(c, s, a)) < Measure(s) && SignalTarget(BeforeWake(c, s, a), a.target)
  {
    if a.Signal? { TotalUpdate(s.workers, a.w, BeforeWake(c, s, a).workers[a.w], Rank); }
  }

  lemma SignalFalls(c: Config, s: State, a: Action)
    requires Enabled(c, s, a) && (a.Signal? || a.StopSignal?)
    ensures Measure(Apply(c, s, a)) < Measure(s)
  {
    SignallerFalls(c, s, a);
    WakeFalls(BeforeWake(c, s, a), a.target);
  }

  lemma JoinerFalls(c: Config, s: State, a: Action)
    requires Enabled(c, s, a) && (a.Reap? || a.ReturnFromJoin?)
    ensures Measure(Apply(c, s, a)) < Measure(s)
  {
  }

  lemma StepFalls(c: Config, s: State, a: Action)
    requires c.Valid() && Ordered(c, s) && Stopping(s) && Enabled(c, s, a) && Orderly(s, a)
    ensures Measure(Apply(c, s, a)) < Measure(s)
  {
    WhoMoves(c, s, a);
    if MovesOneWorker(a) {
      WorkerStepFalls(c, s, a);
    } else if a.Signal? || a.StopSignal? {
      SignalFalls(c, s, a);
    } else {
      JoinerFalls(c, s, a);
    }
  }

  // ---- Some thread can always step ----

  lemma PickTarget(s: State) returns (target: Option<nat>)
    ensures SignalTarget(s, target)
  {
    if t: nat :| t < |s.workers| && s.workers[t].Waiting? {
      target := Some(t);
    } else {
      target := None;
    }
  }

  // A worker that needs no lock, or holds it, can step.
  lemma WorkerCanStep(c: Config, s: State, w: nat) returns (a: Action)
    requires c.Valid() && Ordered(c, s) && w < |s.workers|
    requires !s.workers[w].WantLock? && !s.workers[w].Waiting? && !s.workers[w].Exited?
    ensures Enabled(c, s, a) && Orderly(s, a) && !a.SpuriousWakeup? && !a.Call? && !a.WriteStop?
  {
    assert WorkerOk(c, s, s.workers[w]);
    match s.workers[w]
    case AtGuard => a := GuardReadsQueue(w, s.queue == []);
    case SawEmpty => a := GuardReadsStop(w);
    case Testing => a := Test(w);
    case ParkReady => a := Park(w);
    case Taking(got) => a := if |got| < c.slots then Pop(w) else UnlockToRun(w);
    case Leaving => a := UnlockToExit(w);
    case OwesRun(_) =>
      var target := PickTarget(s);
      a := Signal(w, target);
    case OwesExit =>
      var target := PickTarget(s);
      a := Signal(w, target);
    case Running(_) => a := Finish(w);
  }

  // A worker that wants the lock gets it, or its holder can step.
  lemma LockCanMove(c: Config, s: State, w: nat) returns (a: Action)
    requires c.Valid() && Ordered(c, s) && Stopping(s) && w < |s.workers| && s.workers[w].WantLock?
    ensures Enabled(c, s, a) && Orderly(s, a) && !a.SpuriousWakeup?
  {
    if s.lock.Free? {
      a := Lock(w);
    } else {
      a := WorkerCanStep(c, s, s.lock.w);
    }
  }

  // While a worker waits, the thread that its wakeup comes from can step.
  lemma WaiterGetsHelp(c: Config, s: State, w: nat) returns (a: Action)
    requires c.Valid() && Shutting(c, s) && w < |s.workers| && s.workers[w].Waiting?
    ensures Enabled(c, s, a) && Orderly(s, a) && !a.SpuriousWakeup?
  {
    TotalAtLeast(s.workers, w, Waits);
    if Total(s.workers, Parks) > 0 {
      var i := TotalWitness(s.workers, Parks);
      a := WorkerCanStep(c, s, i);
    } else if Total(s.workers, Locks) > 0 {
      var i := TotalWitness(s.workers, Locks);
      a := LockCanMove(c, s, i);
    } else if Total(s.workers, Owes) > 0 {
      var i := TotalWitness(s.workers, Owes);
      a := WorkerCanStep(c, s, i);
    } else if Total(s.workers, Inside) > 0 {
      var i := TotalWitness(s.workers, Inside);
      a := WorkerCanStep(c, s, i);
    } else {
      var target := PickTarget(s);
      a := StopSignal(target);
    }
  }

  lemma NeverStuck(c: Config, s: State) returns (a: Action)
    requires c.Valid() && Shutting(c, s) && !s.joiner.Joined?
    ensures Enabled(c, s, a) && Orderly(s, a) && !a.SpuriousWakeup?
  {
    match s.joiner
    case OwesStopSignal =>
      var target := PickTarget(s);
      a := StopSignal(target);
    case Joining(r) =>
      if r == |s.workers| {
        a := ReturnFromJoin;
      } else if s.workers[r].Exited? {
        a := Reap;
      } else if s.workers[r].WantLock? {
        a := LockCanMove(c, s, r);
      } else if s.workers[r].Waiting? {
        a := WaiterGetsHelp(c, s, r);
      } else {
        a := WorkerCanStep(c, s, r);
      }
  }

  // ---- When w_join returns ----

  lemma JoinedMeansComplete(c: Config, s: State)
    requires c.Valid() && Shutting(c, s) && s.joiner.Joined?
    ensures Complete(s) && s.queue == []
  {
    assert s.queue == [];
    WholeJobsWhenFree(c, s);
    FlattenHead(Pending(s));
    GatherEmpty(s.workers, Carried);
    Dispatcher.ConservesAll(Abstract(s));
  }

  lemma {:induction false} ShuttingRun(c: Config, s: State, run: seq<Action>)
    requires c.Valid() && Shutting(c, s) && OrderlyRun(c, s, run)
    ensures Shutting(c, After(c, s, run)) && |run| + Measure(After(c, s, run)) <= Measure(s)
    decreases |run|
  {
    if run != [] {
      ShuttingStep(c, s, run[0]);
      StepFalls(c, s, run[0]);
      ShuttingRun(c, Apply(c, s, run[0]), run[1..]);
    }
  }

  lemma {:induction false} CompletionExists(c: Config, s: State) returns (rest: seq<Action>)
    requires c.Valid() && Shutting(c, s)
    ensures OrderlyRun(c, s, rest) && NoSpurious(rest) && Complete(After(c, s, rest))
    decreases Measure(s)
  {
    if s.joiner.Joined? {
      JoinedMeansComplete(c, s);
      rest := [];
    } else {
      var a := NeverStuck(c, s);
      ShuttingStep(c, s, a);
      StepFalls(c, s, a);
      var tail := CompletionExists(c, Apply(c, s, a));
      rest := [a] + tail;
      assert rest[1..] == tail;
    }
  }
}

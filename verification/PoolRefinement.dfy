// Each pool, in each configuration, refines the FIFO dispatcher step by step: a job enters
// when its last word is queued, is dispatched when its worker releases the lock, and
// completes when the worker returns from it. So no job is lost, duplicated or reordered.

module PoolRefinement {
  import opened Sequences
  import opened Pool
  import opened PoolSafety
  import Dispatcher

  predicate Carries(w: Worker) { w.OwesRun? || w.Running? }

  function Carried(w: Worker): multiset<Job> {
    if Carries(w) then multiset{w.job} else multiset{}
  }

  ghost function InFlight(s: State): multiset<Job> {
    Gather(s.workers, Carried)
  }

  ghost function Abstract(s: State): Dispatcher.State<Job> {
    Dispatcher.State(s.posted, |s.taken|, InFlight(s), s.finished)
  }

  ghost function EventOf(c: Config, s: State, a: Action): Dispatcher.Event<Job>
    requires Enabled(c, s, a)
  {
    match a
    case Push(p) =>
      if s.posters[p].pushed + 1 < |s.posters[p].job| then Dispatcher.Silent
      else Dispatcher.Post(s.posters[p].job)
    case UnlockToRun(_) => Dispatcher.Dispatch
    case Finish(w) => Dispatcher.Complete(s.workers[w].job)
    case _ => Dispatcher.Silent
  }

  lemma MoveKeepsInFlight(s: State, w: nat, pc: Worker)
    requires w < |s.workers| && Carried(pc) == Carried(s.workers[w])
    ensures InFlight(s.SetWorker(w, pc)) == InFlight(s)
  {
    GatherSame(s.workers, w, pc, Carried);
  }

  lemma CarriesTheSame(c: Config, s: State, a: Action)
    requires Enabled(c, s, a) && MovesOneWorker(a) && !a.UnlockToRun? && !a.Finish?
    ensures a.w < |s.workers| && |Apply(c, s, a).workers| == |s.workers|
    ensures Carried(Apply(c, s, a).workers[a.w]) == Carried(s.workers[a.w])
    ensures Apply(c, s, a).taken == s.taken && Apply(c, s, a).finished == s.finished
  {
    if a.Pop? || a.Test? {
      InsideCarriesNothing(c, s, a);
    } else if a.Park? || a.UnlockToExit? || a.Lock? {
      LeavesLock(c, s, a);
    } else {
      OutsideCarriesNothing(c, s, a);
    }
  }

  lemma InsideCarriesNothing(c: Config, s: State, a: Action)
    requires Enabled(c, s, a) && (a.Pop? || a.Test?)
    ensures var s' := Apply(c, s, a);
      && |s'.workers| == |s.workers| && !Carries(s'.workers[a.w]) && !Carries(s.workers[a.w])
      && s'.taken == s.taken && s'.finished == s.finished
  {
  }

  lemma LeavesLock(c: Config, s: State, a: Action)
    requires Enabled(c, s, a) && (a.Park? || a.UnlockToExit? || a.Lock?)
    ensures var s' := Apply(c, s, a);
      && |s'.workers| == |s.workers| && !Carries(s'.workers[a.w]) && !Carries(s.workers[a.w])
      && s'.taken == s.taken && s'.finished == s.finished
  {
  }

  lemma OutsideCarriesNothing(c: Config, s: State, a: Action)
    requires Enabled(c, s, a) && (a.GuardReadsQueue? || a.GuardReadsStop? || a.SpuriousWakeup?)
    ensures var s' := Apply(c, s, a);
      && |s'.workers| == |s.workers| && !Carries(s'.workers[a.w]) && !Carries(s.workers[a.w])
      && s'.taken == s.taken && s'.finished == s.finished
  {
  }

  lemma WakeKeepsInFlight(s: State, target: Option<nat>)
    requires SignalTarget(s, target)
    ensures InFlight(s.Wake(target)) == InFlight(s)
  {
    if target.Some? { MoveKeepsInFlight(s, target.value, WantLock); }
  }

  lemma SignalKeepsInFlight(c: Config, s: State, a: Action)
    requires Enabled(c, s, a) && (a.Signal? || a.PosterSignal? || a.StopSignal?)
    ensures InFlight(Apply(c, s, a)) == InFlight(s)
  {
    BeforeWakeKeepsInFlight(c, s, a);
    WakeKeepsInFlight(BeforeWake(c, s, a), a.target);
  }

  lemma BeforeWakeKeepsInFlight(c: Config, s: State, a: Action)
    requires Enabled(c, s, a) && (a.Signal? || a.PosterSignal? || a.StopSignal?)
    ensures SignalTarget(BeforeWake(c, s, a), a.target) && InFlight(BeforeWake(c, s, a)) == InFlight(s)
  {
    if a.Signal? {
      MoveKeepsInFlight(s, a.w, BeforeWake(c, s, a).workers[a.w]);
    }
  }

  lemma SilentStep(c: Config, s: State, a: Action)
    requires Enabled(c, s, a) && EventOf(c, s, a).Silent?
    ensures Abstract(Apply(c, s, a)) == Abstract(s)
  {
    if MovesOneWorker(a) {
      WorkerFrame(c, s, a);
      CarriesTheSame(c, s, a);
      MoveKeepsInFlight(s, a.w, Apply(c, s, a).workers[a.w]);
    } else if a.Signal? || a.PosterSignal? || a.StopSignal? {
      SignalKeepsInFlight(c, s, a);
    }
  }

  lemma DispatchStep(c: Config, s: State, w: nat)
    requires c.Valid() && Ordered(c, s) && Enabled(c, s, UnlockToRun(w))
    ensures Dispatcher.Next(Abstract(s), Dispatcher.Dispatch, Abstract(Apply(c, s, UnlockToRun(w))))
  {
    UnlockToRunOrdered(c, s, UnlockToRun(w));
    GatherGains(s.workers, w, OwesRun(s.workers[w].got), Carried);
  }

  lemma FinishLands(s: State, w: nat, job: Job)
    requires w < |s.workers| && s.workers[w] == Running(job)
    ensures InFlight(s) == InFlight(s.SetWorker(w, AtGuard)) + multiset{job}
  {
    var ws := s.SetWorker(w, AtGuard).workers;
    assert ws[w := s.workers[w]] == s.workers;
    GatherGains(ws, w, s.workers[w], Carried);
  }

  lemma CompleteStep(c: Config, s: State, w: nat)
    requires Enabled(c, s, Finish(w))
    ensures Dispatcher.Next(Abstract(s), Dispatcher.Complete(s.workers[w].job), Abstract(Apply(c, s, Finish(w))))
  {
    var job := s.workers[w].job;
    FinishLands(s, w, job);
    assert Apply(c, s, Finish(w)).workers == s.SetWorker(w, AtGuard).workers;
    assert InFlight(Apply(c, s, Finish(w))) == InFlight(s) - multiset{job};
  }

  lemma StepRefines(c: Config, s: State, a: Action)
    requires c.Valid() && Ordered(c, s) && Enabled(c, s, a)
    ensures Dispatcher.Next(Abstract(s), EventOf(c, s, a), Abstract(Apply(c, s, a)))
  {
    match a
    case UnlockToRun(w) => DispatchStep(c, s, w);
    case Finish(w) => CompleteStep(c, s, w);
    case _ => if EventOf(c, s, a).Silent? { SilentStep(c, s, a); }
  }

  // ---- Whole runs ----

  ghost function Events(c: Config, s: State, run: seq<Action>): seq<Dispatcher.Event<Job>>
    requires IsRun(c, s, run)
    decreases |run|
  {
    if run == [] then []
    else [EventOf(c, s, run[0])] + Events(c, Apply(c, s, run[0]), run[1..])
  }

  lemma {:induction false} RunRefines(c: Config, s: State, run: seq<Action>)
    requires c.Valid() && Ordered(c, s) && IsRun(c, s, run)
    ensures Ordered(c, After(c, s, run))
    ensures Dispatcher.IsTrace(Abstract(s), Events(c, s, run), Abstract(After(c, s, run)))
    decreases |run|
  {
    if run != [] {
      var next := Apply(c, s, run[0]);
      OrderStep(c, s, run[0]);
      StepRefines(c, s, run[0]);
      RunRefines(c, next, run[1..]);
      assert Events(c, s, run)[1..] == Events(c, next, run[1..]);
    }
  }

  lemma InitRefines(c: Config, n: nat, m: nat)
    ensures Ordered(c, Init(n, m)) && Abstract(Init(n, m)) == Dispatcher.Init()
  {
    GatherEmpty(Init(n, m).workers, Carried);
  }

  // Conservation, order and pairing in every reachable state of every pool.
  lemma {:induction false} PoolConserves(c: Config, n: nat, m: nat, run: seq<Action>)
    requires c.Valid() && IsRun(c, Init(n, m), run)
    ensures var s := After(c, Init(n, m), run);
      && multiset(s.posted) == multiset(Pending(s)) + InFlight(s) + s.finished
      && s.taken + Pending(s) == s.posted
      && (s.lock.Free? ==> s.queue == Flatten(Pending(s)))
  {
    var s := After(c, Init(n, m), run);
    InitRefines(c, n, m);
    RunRefines(c, Init(n, m), run);
    Dispatcher.TraceConserves(Dispatcher.Init(), Events(c, Init(n, m), run), Abstract(s));
    Dispatcher.ConservesAll(Abstract(s));
    if s.lock.Free? { WholeJobsWhenFree(c, s); }
    TakenThenPending(s);
  }

  lemma TakenThenPending(s: State)
    requires |s.taken| <= |s.posted| && s.taken == s.posted[..|s.taken|]
    ensures s.taken + Pending(s) == s.posted
  {
    assert s.posted == s.posted[..|s.taken|] + s.posted[|s.taken|..];
  }

  // A worker that releases the lock with a job releases it with a posted one, the oldest
  // not yet taken: its two reads of the queue never straddle two jobs.
  lemma {:induction false} WorkersRunPostedJobs(c: Config, n: nat, m: nat, run: seq<Action>, w: nat)
    requires c.Valid() && IsRun(c, Init(n, m), run)
    requires Enabled(c, After(c, Init(n, m), run), UnlockToRun(w))
    ensures var s := After(c, Init(n, m), run);
      |s.taken| < |s.posted| && s.workers[w].got == s.posted[|s.taken|]
  {
    InitRefines(c, n, m);
    RunRefines(c, Init(n, m), run);
    UnlockToRunOrdered(c, After(c, Init(n, m), run), UnlockToRun(w));
  }
}

// No job is left sleeping: while a worker waits, every pending job is matched by a worker
// that is about to test the queue or by a signal that is still owed. Holds in every
// reachable state, with no assumption about the guard or about when _stop is written.

module PoolWakeups {
  import opened Sequences
  import opened Pool
  import opened PoolSafety

  function Waits(w: Worker): nat { if w.Waiting? then 1 else 0 }

  // Awake and certain to test the queue before it can wait again.
  function Checks(w: Worker): nat {
    if w.WantLock? || w.Testing? || w.Taking? then 1 else 0
  }

  function Owes(w: Worker): nat { if w.OwesRun? || w.OwesExit? then 1 else 0 }

  function PosterOwes(p: Poster): nat {
    if p.OwesSignal? || p.Pushed? then 1 else 0
  }

  ghost function JoinerOwes(s: State): nat { if s.joiner.OwesStopSignal? then 1 else 0 }

  ghost function SignalsOwed(s: State): nat {
    Total(s.workers, Owes) + Total(s.posters, PosterOwes) + JoinerOwes(s)
  }

  ghost predicate NoJobSleeps(s: State) {
    Total(s.workers, Waits) > 0 ==> |Pending(s)| <= Total(s.workers, Checks) + SignalsOwed(s)
  }

  lemma CountMove(ws: seq<Worker>, w: nat, pc: Worker)
    requires w < |ws|
    ensures Total(ws[w := pc], Waits) + Waits(ws[w]) == Total(ws, Waits) + Waits(pc)
    ensures Total(ws[w := pc], Checks) + Checks(ws[w]) == Total(ws, Checks) + Checks(pc)
    ensures Total(ws[w := pc], Owes) + Owes(ws[w]) == Total(ws, Owes) + Owes(pc)
  {
    TotalUpdate(ws, w, pc, Waits);
    TotalUpdate(ws, w, pc, Checks);
    TotalUpdate(ws, w, pc, Owes);
  }

  // A signal turns one waiter into a checker, or is lost because nobody waits.
  lemma WakeCounts(s: State, target: Option<nat>)
    requires SignalTarget(s, target)
    ensures var ws := s.Wake(target).workers;
      && Total(ws, Owes) == Total(s.workers, Owes)
      && Total(ws, Checks) == Total(s.workers, Checks) + (if target.Some? then 1 else 0)
      && (if target.Some? then Total(ws, Waits) + 1 == Total(s.workers, Waits) else Total(ws, Waits) == 0)
  {
    match target
    case Some(t) => CountMove(s.workers, t, WantLock);
    case None => TotalZero(s.workers, Waits);
  }

  // An empty queue seen by the lock holder means that no job is pending.
  lemma NothingPending(c: Config, s: State, w: nat)
    requires c.Valid() && Ordered(c, s) && s.queue == []
    requires w < |s.workers| && WorkerHolds(s.workers[w]) && !s.workers[w].Taking?
    ensures Pending(s) == []
  {
    assert Flatten(Pending(s)) == [];
    FlattenHead(Pending(s));
  }

  // Steps that neither take a job nor stop a worker from checking.
  lemma EasyWorkerStep(c: Config, s: State, a: Action)
    requires NoJobSleeps(s) && Enabled(c, s, a)
    requires a.GuardReadsQueue? || a.GuardReadsStop? || a.Lock? || a.Pop? || a.Finish? || a.SpuriousWakeup?
    ensures NoJobSleeps(Apply(c, s, a))
  {
    WorkerFrame(c, s, a);
    CountMove(s.workers, a.w, Apply(c, s, a).workers[a.w]);
  }

  lemma TestStep(c: Config, s: State, a: Action)
    requires c.Valid() && Ordered(c, s) && NoJobSleeps(s) && Enabled(c, s, a) && a.Test?
    ensures NoJobSleeps(Apply(c, s, a))
  {
    CountMove(s.workers, a.w, Apply(c, s, a).workers[a.w]);
    if s.queue == [] { NothingPending(c, s, a.w); }
  }

  lemma IdleUnlockStep(c: Config, s: State, a: Action)
    requires c.Valid() && Ordered(c, s) && Enabled(c, s, a) && (a.Park? || a.UnlockToExit?)
    ensures NoJobSleeps(Apply(c, s, a))
  {
    assert WorkerOk(c, s, s.workers[a.w]);
    NothingPending(c, s, a.w);
  }

  lemma TakeStep(c: Config, s: State, a: Action)
    requires c.Valid() && Ordered(c, s) && NoJobSleeps(s) && Enabled(c, s, a) && a.UnlockToRun?
    ensures NoJobSleeps(Apply(c, s, a))
  {
    UnlockToRunOrdered(c, s, a);
    CountMove(s.workers, a.w, OwesRun(s.workers[a.w].got));
  }

  lemma PosterStep(c: Config, s: State, a: Action)
    requires NoJobSleeps(s) && Ordered(c, s) && Enabled(c, s, a) && MovesOnePoster(a)
    ensures NoJobSleeps(Apply(c, s, a))
  {
    PosterFrame(c, s, a);
    TotalUpdate(s.posters, a.p, Apply(c, s, a).posters[a.p], PosterOwes);
  }

  lemma SignalStep(c: Config, s: State, a: Action)
    requires NoJobSleeps(s) && Enabled(c, s, a) && (a.Signal? || a.PosterSignal? || a.StopSignal?)
    ensures NoJobSleeps(Apply(c, s, a))
  {
    var mid := BeforeWake(c, s, a);
    if a.Signal? {
      CountMove(s.workers, a.w, mid.workers[a.w]);
    } else if a.PosterSignal? {
      TotalUpdate(s.posters, a.p, mid.posters[a.p], PosterOwes);
    }
    WakeCounts(mid, a.target);
  }

  lemma SleepStep(c: Config, s: State, a: Action)
    requires c.Valid() && Ordered(c, s) && NoJobSleeps(s) && Enabled(c, s, a)
    ensures NoJobSleeps(Apply(c, s, a))
  {
    match a
    case Test(_) => TestStep(c, s, a);
    case Park(_) => IdleUnlockStep(c, s, a);
    case UnlockToExit(_) => IdleUnlockStep(c, s, a);
    case UnlockToRun(_) => TakeStep(c, s, a);
    case Signal(_, _) => SignalStep(c, s, a);
    case PosterSignal(_, _) => SignalStep(c, s, a);
    case StopSignal(_) => SignalStep(c, s, a);
    case WriteStop =>
    case Reap =>
    case ReturnFromJoin =>
    case _ => if MovesOnePoster(a) { PosterStep(c, s, a); } else { EasyWorkerStep(c, s, a); }
  }

  lemma {:induction false} RunNeverSleeps(c: Config, s: State, run: seq<Action>)
    requires c.Valid() && Ordered(c, s) && NoJobSleeps(s) && IsRun(c, s, run)
    ensures NoJobSleeps(After(c, s, run))
    decreases |run|
  {
    if run != [] {
      OrderStep(c, s, run[0]);
      SleepStep(c, s, run[0]);
      RunNeverSleeps(c, Apply(c, s, run[0]), run[1..]);
    }
  }

  lemma {:induction false} NoJobEverSleeps(c: Config, n: nat, m: nat, run: seq<Action>)
    requires c.Valid() && IsRun(c, Init(n, m), run)
    ensures NoJobSleeps(After(c, Init(n, m), run))
  {
    TotalZero(Init(n, m).workers, Waits);
    RunNeverSleeps(c, Init(n, m), run);
  }
}

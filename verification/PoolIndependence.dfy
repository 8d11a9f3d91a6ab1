// Threads of the pool stand in each other's way only at the lock. A step that a thread can
// take stays possible whatever step another thread takes first, unless both take the lock or
// the first is the signal that ends the wait; only whom a signal wakes may change.

module PoolIndependence {
  import opened Sequences
  import opened Pool
  import opened PoolShutdown
  import PoolProgress

  datatype Actor = AWorker(w: nat) | APoster(p: nat) | TheJoiner

  function ActorOf(a: Action): Actor {
    match a
    case Call(p, _) => APoster(p)
    case PosterLock(p) => APoster(p)
    case Push(p) => APoster(p)
    case PosterSignal(p, _) => APoster(p)
    case PosterUnlock(p) => APoster(p)
    case WriteStop => TheJoiner
    case StopSignal(_) => TheJoiner
    case Reap => TheJoiner
    case ReturnFromJoin => TheJoiner
    case _ => AWorker(a.w)
  }

  predicate TakesLock(a: Action) { a.Lock? || a.PosterLock? }

  predicate Signals(a: Action) { a.Signal? || a.PosterSignal? || a.StopSignal? }

  // a ends the wait that b would end.
  predicate WakesFirst(a: Action, b: Action) {
    Signals(a) && b.SpuriousWakeup? && a.target == Some(b.w)
  }

  // b, or b with another waiter to wake.
  ghost predicate StillPossible(c: Config, s: State, b: Action) {
    if Signals(b) then exists target :: Enabled(c, s, b.(target := target)) else Enabled(c, s, b)
  }

  lemma SignalStaysPossible(c: Config, s: State, s': State, b: Action)
    requires Signals(b) && Enabled(c, s, b)
    requires b.Signal? ==> b.w < |s'.workers| && s'.workers[b.w] == s.workers[b.w]
    requires b.PosterSignal? ==> b.p < |s'.posters| && s'.posters[b.p] == s.posters[b.p]
    requires b.StopSignal? ==> s'.joiner == s.joiner
    ensures StillPossible(c, s', b)
  {
    var target := PickTarget(s');
    assert Enabled(c, s', b.(target := target));
  }

  // What another thread does leaves a thread where it is, unless it is woken.
  lemma OthersStay(c: Config, s: State, a: Action, b: Action)
    requires Enabled(c, s, a) && Enabled(c, s, b) && ActorOf(a) != ActorOf(b) && !WakesFirst(a, b)
    ensures var s' := Apply(c, s, a);
      match ActorOf(b)
      case AWorker(w) => w < |s'.workers| && s'.workers[w] == s.workers[w]
      case APoster(p) => p < |s'.posters| && s'.posters[p] == s.posters[p]
      case TheJoiner => s'.joiner == s.joiner
  {
    if MovesOneWorker(a) {
      WorkerFrame(c, s, a);
    } else if MovesOnePoster(a) {
      PosterFrame(c, s, a);
    }
  }

  // Workers that have exited are still there to be joined.
  lemma ExitedStays(c: Config, s: State, a: Action, w: nat)
    requires Enabled(c, s, a) && w < |s.workers| && s.workers[w].Exited?
    ensures |Apply(c, s, a).workers| == |s.workers| && Apply(c, s, a).workers[w].Exited?
  {
    PoolProgress.WorkersRemain(c, s, a);
    if MovesOneWorker(a) {
      WorkerFrame(c, s, a);
      ExitedWorkersStay(c, s, a);
    }
  }

  lemma LockStaysFree(c: Config, s: State, a: Action)
    requires Enabled(c, s, a) && !TakesLock(a) && s.lock.Free?
    ensures Apply(c, s, a).lock.Free?
  {
  }

  lemma StepsAreIndependent(c: Config, s: State, a: Action, b: Action)
    requires Enabled(c, s, a) && Enabled(c, s, b) && ActorOf(a) != ActorOf(b)
    requires !(TakesLock(a) && TakesLock(b)) && !WakesFirst(a, b)
    ensures StillPossible(c, Apply(c, s, a), b)
  {
    var s' := Apply(c, s, a);
    OthersStay(c, s, a, b);
    if Signals(b) {
      SignalStaysPossible(c, s, s', b);
    } else if TakesLock(b) {
      LockStaysFree(c, s, a);
    } else if b.Reap? {
      ExitedStays(c, s, a, s.joiner.reaped);
    } else if b.ReturnFromJoin? {
      PoolProgress.WorkersRemain(c, s, a);
    }
  }
}

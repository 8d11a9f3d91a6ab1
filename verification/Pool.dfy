// The worker pool as a machine whose steps are the accesses the threads make to shared
// state. One machine serves both pools of the repository: a job occupies `slots` queue
// entries, and `notifyInside` says whether post signals before or after releasing the lock.

module Pool {
  import opened Sequences
  import Fifo

  // A queue entry: one machine word, as a number.
  type Word = nat
  type Job = seq<Word>

  datatype Config = Config(slots: nat, notifyInside: bool) {
    ghost predicate Valid() { slots >= 1 }
  }

  const UNIX_WORKERS := Config(2, false)
  const CPP_THREADPOOL := Config(1, true)

  // Program counter of a thread running w_process.
  datatype Worker =
    | AtGuard              // about to read the queue in the unlocked loop guard
    | SawEmpty             // the guard read an empty queue and will now read _stop
    | WantLock             // locking, or woken and re-acquiring the lock in cond_wait
    | Testing              // holds the lock, at the test before cond_wait
    | ParkReady            // holds the lock, the test said wait, not yet waiting
    | Waiting              // inside cond_wait
    | Taking(got: Job)     // holds the lock, words popped so far
    | Leaving              // holds the lock, found nothing left and _stop set
    | OwesRun(job: Job)    // released the lock, must signal and then run the job
    | OwesExit             // released the lock, must signal and then return
    | Running(job: Job)
    | Exited

  // Program counter of a thread that may call w_post.
  datatype Poster =
    | Idle
    | Calling(job: Job)                // wants the lock
    | Pushing(job: Job, pushed: nat)   // holds the lock
    | Pushed                           // holds the lock, the whole job is queued
    | Notified                         // holds the lock, has already signalled
    | OwesSignal                       // released the lock, must signal

  // The one thread that calls w_join.
  datatype Joiner = NotJoining | OwesStopSignal | Joining(reaped: nat) | Joined

  datatype Lock = Free | HeldByWorker(w: nat) | HeldByPoster(p: nat)

  // The last three fields are history: the jobs posted and the jobs taken, in order,
  // and the jobs that have been run to completion.
  datatype State = State(
    workers: seq<Worker>, posters: seq<Poster>, joiner: Joiner,
    lock: Lock, stop: bool, queue: seq<Word>,
    posted: seq<Job>, taken: seq<Job>, finished: multiset<Job>)
  {
    function SetWorker(w: nat, pc: Worker): State
      requires w < |workers|
    {
      this.(workers := workers[w := pc])
    }

    function SetPoster(p: nat, pc: Poster): State
      requires p < |posters|
    {
      this.(posters := posters[p := pc])
    }

    // pthread_cond_signal wakes one waiter; with nobody waiting it does nothing.
    function Wake(target: Option<nat>): State
      requires target.Some? ==> target.value < |workers|
    {
      if target.Some? then SetWorker(target.value, WantLock) else this
    }
  }

  ghost predicate SignalTarget(s: State, target: Option<nat>) {
    match target
    case Some(t) => t < |s.workers| && s.workers[t].Waiting?
    case None => forall i :: 0 <= i < |s.workers| ==> !s.workers[i].Waiting?
  }

  datatype Action =
    | GuardReadsQueue(w: nat, empty: bool)
    | GuardReadsStop(w: nat)
    | Lock(w: nat)
    | Test(w: nat)
    | Park(w: nat)
    | Pop(w: nat)
    | UnlockToRun(w: nat)
    | UnlockToExit(w: nat)
    | Signal(w: nat, target: Option<nat>)
    | Finish(w: nat)
    | SpuriousWakeup(w: nat)
    | Call(p: nat, job: Job)
    | PosterLock(p: nat)
    | Push(p: nat)
    | PosterSignal(p: nat, target: Option<nat>)
    | PosterUnlock(p: nat)
    | WriteStop
    | StopSignal(target: Option<nat>)
    | Reap
    | ReturnFromJoin

  ghost predicate Enabled(c: Config, s: State, a: Action) {
    match a
    case GuardReadsQueue(w, _) => w < |s.workers| && s.workers[w].AtGuard?
    case GuardReadsStop(w) => w < |s.workers| && s.workers[w].SawEmpty?
    case Lock(w) => w < |s.workers| && s.workers[w].WantLock? && s.lock.Free?
    case Test(w) => w < |s.workers| && s.workers[w].Testing?
    case Park(w) => w < |s.workers| && s.workers[w].ParkReady?
    case Pop(w) => w < |s.workers| && s.workers[w].Taking? && |s.workers[w].got| < c.slots
    case UnlockToRun(w) => w < |s.workers| && s.workers[w].Taking? && |s.workers[w].got| == c.slots
    case UnlockToExit(w) => w < |s.workers| && s.workers[w].Leaving?
    case Signal(w, target) =>
      w < |s.workers| && (s.workers[w].OwesRun? || s.workers[w].OwesExit?) && SignalTarget(s, target)
    case Finish(w) => w < |s.workers| && s.workers[w].Running?
    case SpuriousWakeup(w) => w < |s.workers| && s.workers[w].Waiting?
    case Call(p, job) => p < |s.posters| && s.posters[p].Idle? && |job| == c.slots
    case PosterLock(p) => p < |s.posters| && s.posters[p].Calling? && s.lock.Free?
    case Push(p) => p < |s.posters| && s.posters[p].Pushing? && s.posters[p].pushed < |s.posters[p].job|
    case PosterSignal(p, target) =>
      && p < |s.posters| && SignalTarget(s, target)
      && (if c.notifyInside then s.posters[p].Pushed? else s.posters[p].OwesSignal?)
    case PosterUnlock(p) =>
      p < |s.posters| && (if c.notifyInside then s.posters[p].Notified? else s.posters[p].Pushed?)
    case WriteStop => s.joiner.NotJoining?
    case StopSignal(target) => s.joiner.OwesStopSignal? && SignalTarget(s, target)
    case Reap =>
      s.joiner.Joining? && s.joiner.reaped < |s.workers| && s.workers[s.joiner.reaped].Exited?
    case ReturnFromJoin => s.joiner.Joining? && s.joiner.reaped == |s.workers|
  }

  // Where a signalling thread goes, apart from the waiter it wakes.
  ghost function BeforeWake(c: Config, s: State, a: Action): State
    requires Enabled(c, s, a) && (a.Signal? || a.PosterSignal? || a.StopSignal?)
  {
    match a
    case Signal(w, _) =>
      s.SetWorker(w, if s.workers[w].OwesRun? then Running(s.workers[w].job) else Exited)
    case PosterSignal(p, _) => s.SetPoster(p, if c.notifyInside then Notified else Idle)
    case StopSignal(_) => s.(joiner := Joining(0))
  }

  ghost function Apply(c: Config, s: State, a: Action): State
    requires Enabled(c, s, a)
  {
    match a
    case GuardReadsQueue(w, empty) => s.SetWorker(w, if empty then SawEmpty else WantLock)
    case GuardReadsStop(w) => s.SetWorker(w, if s.stop then Exited else WantLock)
    case Lock(w) => s.SetWorker(w, Testing).(lock := HeldByWorker(w))
    case Test(w) =>
      s.SetWorker(w, if s.queue != [] then Taking([]) else if s.stop then Leaving else ParkReady)
    case Park(w) => s.SetWorker(w, Waiting).(lock := Free)
    case Pop(w) =>
      s.SetWorker(w, Taking(s.workers[w].got + [Fifo.Head(s.queue, 0)])).(queue := Fifo.Rest(s.queue))
    case UnlockToRun(w) =>
      var job := s.workers[w].got;
      s.SetWorker(w, OwesRun(job)).(lock := Free, taken := s.taken + [job])
    case UnlockToExit(w) => s.SetWorker(w, OwesExit).(lock := Free)
    case Signal(_, target) => BeforeWake(c, s, a).Wake(target)
    case Finish(w) =>
      s.SetWorker(w, AtGuard).(finished := s.finished + multiset{s.workers[w].job})
    case SpuriousWakeup(w) => s.SetWorker(w, WantLock)
    case Call(p, job) => s.SetPoster(p, Calling(job))
    case PosterLock(p) => s.SetPoster(p, Pushing(s.posters[p].job, 0)).(lock := HeldByPoster(p))
    case Push(p) =>
      var Pushing(job, pushed) := s.posters[p];
      var s' := s.(queue := Fifo.Append(s.queue, job[pushed]));
      if pushed + 1 < |job| then s'.SetPoster(p, Pushing(job, pushed + 1))
      else s'.SetPoster(p, Pushed).(posted := s.posted + [job])
    case PosterSignal(_, target) => BeforeWake(c, s, a).Wake(target)
    case PosterUnlock(p) =>
      s.SetPoster(p, if c.notifyInside then Idle else OwesSignal).(lock := Free)
    case WriteStop => s.(joiner := OwesStopSignal, stop := true)
    case StopSignal(target) => BeforeWake(c, s, a).Wake(target)
    case Reap => s.(joiner := Joining(s.joiner.reaped + 1))
    case ReturnFromJoin => s.(joiner := Joined)
  }

  // Every step of a worker but a signal changes that worker's program counter alone.
  predicate MovesOneWorker(a: Action) {
    || a.GuardReadsQueue? || a.GuardReadsStop? || a.Lock? || a.Test? || a.Park? || a.Pop?
    || a.UnlockToRun? || a.UnlockToExit? || a.Finish? || a.SpuriousWakeup?
  }

  predicate MovesOnePoster(a: Action) {
    a.Call? || a.PosterLock? || a.Push? || a.PosterUnlock?
  }

  lemma WorkerFrame(c: Config, s: State, a: Action)
    requires Enabled(c, s, a) && MovesOneWorker(a)
    ensures a.w < |s.workers|
    ensures var s' := Apply(c, s, a);
      && |s'.workers| == |s.workers| && s'.workers == s.workers[a.w := s'.workers[a.w]]
      && s'.posters == s.posters && s'.joiner == s.joiner && s'.stop == s.stop && s'.posted == s.posted
  {
  }

  lemma PosterFrame(c: Config, s: State, a: Action)
    requires Enabled(c, s, a) && MovesOnePoster(a)
    ensures a.p < |s.posters|
    ensures var s' := Apply(c, s, a);
      && |s'.posters| == |s.posters| && s'.posters == s.posters[a.p := s'.posters[a.p]]
      && s'.workers == s.workers && s'.joiner == s.joiner && s'.stop == s.stop && s'.taken == s.taken
  {
  }

  // w_create with n threads, in a program with m threads that may post.
  function Init(n: nat, m: nat): State {
    State(seq(n, _ => AtGuard), seq(m, _ => Idle), NotJoining, Free, false, [], [], [], multiset{})
  }

  // Runs are lists of actions; any interleaving is a run.
  ghost predicate IsRun(c: Config, s: State, run: seq<Action>)
    decreases |run|
  {
    run == [] || (Enabled(c, s, run[0]) && IsRun(c, Apply(c, s, run[0]), run[1..]))
  }

  ghost function After(c: Config, s: State, run: seq<Action>): State
    requires IsRun(c, s, run)
    decreases |run|
  {
    if run == [] then s else After(c, Apply(c, s, run[0]), run[1..])
  }

  lemma {:induction false} RunsCompose(c: Config, s: State, first: seq<Action>, second: seq<Action>)
    requires IsRun(c, s, first) && IsRun(c, After(c, s, first), second)
    ensures IsRun(c, s, first + second)
    ensures After(c, s, first + second) == After(c, After(c, s, first), second)
    decreases |first|
  {
    if first == [] {
      assert first + second == second;
    } else {
      assert (first + second)[1..] == first[1..] + second;
      RunsCompose(c, Apply(c, s, first[0]), first[1..], second);
    }
  }
}

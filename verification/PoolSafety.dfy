// What every step of the pool keeps, whatever the interleaving. Nothing here assumes that
// the loop guard is read atomically, that the guard's read of the queue is accurate, that
// posting ends before _stop is written, or when _stop is written.

module PoolSafety {
  import opened Sequences
  import opened Pool

  // ---- Mutual exclusion ----

  predicate WorkerHolds(w: Worker) {
    w.Testing? || w.ParkReady? || w.Taking? || w.Leaving?
  }

  predicate PosterHolds(p: Poster) {
    p.Pushing? || p.Pushed? || p.Notified?
  }

  ghost predicate LockIsExclusive(s: State) {
    && (s.lock.HeldByWorker? ==> s.lock.w < |s.workers| && WorkerHolds(s.workers[s.lock.w]))
    && (s.lock.HeldByPoster? ==> s.lock.p < |s.posters| && PosterHolds(s.posters[s.lock.p]))
    && (forall i :: 0 <= i < |s.workers| ==> (WorkerHolds(s.workers[i]) <==> s.lock == HeldByWorker(i)))
    && (forall i :: 0 <= i < |s.posters| ==> (PosterHolds(s.posters[i]) <==> s.lock == HeldByPoster(i)))
  }

  // ---- Pairing and order ----

  ghost function Pending(s: State): seq<Job> {
    if |s.taken| <= |s.posted| then s.posted[|s.taken|..] else []
  }

  // Words already popped by the worker in the critical section.
  ghost function InHand(s: State): seq<Word> {
    if s.lock.HeldByWorker? && s.lock.w < |s.workers| && s.workers[s.lock.w].Taking?
    then s.workers[s.lock.w].got else []
  }

  // Words already queued by the poster in the critical section.
  ghost function HalfPosted(s: State): seq<Word> {
    if s.lock.HeldByPoster? && s.lock.p < |s.posters| && s.posters[s.lock.p].Pushing?
       && s.posters[s.lock.p].pushed <= |s.posters[s.lock.p].job|
    then s.posters[s.lock.p].job[..s.posters[s.lock.p].pushed] else []
  }

  ghost predicate WorkerOk(c: Config, s: State, w: Worker) {
    && (w.Taking? ==> |w.got| <= c.slots && w.got + s.queue != [])
    && (w.ParkReady? || w.Leaving? ==> s.queue == [])
  }

  ghost predicate PosterOk(c: Config, p: Poster) {
    && (p.Calling? ==> |p.job| == c.slots)
    && (p.Pushing? ==> |p.job| == c.slots && p.pushed < c.slots)
    && (p.Notified? ==> c.notifyInside) && (p.OwesSignal? ==> !c.notifyInside)
  }

  ghost predicate JobsInOrder(c: Config, s: State) {
    && |s.taken| <= |s.posted|
    && s.taken == s.posted[..|s.taken|]
    && (forall i :: 0 <= i < |s.posted| ==> |s.posted[i]| == c.slots)
    && (forall i :: 0 <= i < |s.workers| ==> WorkerOk(c, s, s.workers[i]))
    && (forall i :: 0 <= i < |s.posters| ==> PosterOk(c, s.posters[i]))
    && InHand(s) + s.queue == Flatten(Pending(s)) + HalfPosted(s)
  }

  // ---- Preservation of mutual exclusion and order ----

  ghost predicate Ordered(c: Config, s: State) {
    LockIsExclusive(s) && JobsInOrder(c, s)
  }

  lemma LockOrdered(c: Config, s: State, a: Action)
    requires c.Valid() && Ordered(c, s) && Enabled(c, s, a) && a.Lock?
    ensures Ordered(c, Apply(c, s, a))
  {
  }

  lemma TestOrdered(c: Config, s: State, a: Action)
    requires c.Valid() && Ordered(c, s) && Enabled(c, s, a) && a.Test?
    ensures Ordered(c, Apply(c, s, a))
  {
    assert WorkerHolds(s.workers[a.w]);
  }

  // A worker outside the critical section moves and stays outside it.
  lemma MoveOrdered(c: Config, s: State, w: nat, pc: Worker)
    requires Ordered(c, s) && w < |s.workers| && !WorkerHolds(s.workers[w]) && !WorkerHolds(pc)
    ensures Ordered(c, s.SetWorker(w, pc))
  {
  }

  lemma FreeMoveOrdered(c: Config, s: State, a: Action)
    requires c.Valid() && Ordered(c, s) && Enabled(c, s, a)
    requires a.GuardReadsQueue? || a.GuardReadsStop? || a.SpuriousWakeup? || a.Finish?
    ensures Ordered(c, Apply(c, s, a))
  {
    var pc := Apply(c, s, a).workers[a.w];
    MoveOrdered(c, s, a.w, pc);
    assert Apply(c, s, a) == s.SetWorker(a.w, pc).(finished := Apply(c, s, a).finished);
  }

  lemma ParkOrdered(c: Config, s: State, a: Action)
    requires c.Valid() && Ordered(c, s) && Enabled(c, s, a) && a.Park?
    ensures Ordered(c, Apply(c, s, a))
  {
    assert WorkerHolds(s.workers[a.w]);
  }

  lemma UnlockToExitOrdered(c: Config, s: State, a: Action)
    requires c.Valid() && Ordered(c, s) && Enabled(c, s, a) && a.UnlockToExit?
    ensures Ordered(c, Apply(c, s, a))
  {
    assert WorkerHolds(s.workers[a.w]);
  }

  // The queue still holds a word when a worker is part-way through popping a job.
  lemma PopFindsAWord(c: Config, s: State, w: nat)
    requires c.Valid() && Ordered(c, s) && Enabled(c, s, Pop(w))
    ensures s.queue != []
  {
    var got := s.workers[w].got;
    var pending := Pending(s);
    assert WorkerHolds(s.workers[w]) && WorkerOk(c, s, s.workers[w]);
    assert got + s.queue == Flatten(pending);
    assert pending != [];
    assert |Flatten(pending)| >= |pending[0]| == c.slots;
  }

  lemma PopOrdered(c: Config, s: State, a: Action)
    requires c.Valid() && Ordered(c, s) && Enabled(c, s, a) && a.Pop?
    ensures Ordered(c, Apply(c, s, a))
  {
    var s' := Apply(c, s, a);
    PopFindsAWord(c, s, a.w);
    assert WorkerHolds(s.workers[a.w]);
    assert InHand(s') + s'.queue == InHand(s) + s.queue;
  }

  // A job whose words have all been popped is the oldest pending job.
  lemma {:induction false} FirstJob(c: Config, got: Job, queue: seq<Word>, pending: seq<Job>)
    requires c.Valid() && |got| == c.slots
    requires forall i :: 0 <= i < |pending| ==> |pending[i]| == c.slots
    requires got + queue == Flatten(pending)
    ensures pending != [] && pending[0] == got && queue == Flatten(pending[1..])
  {
    assert |got + queue| >= 1;
    var rest := Flatten(pending[1..]);
    assert got + queue == pending[0] + rest;
    assert got == (got + queue)[..c.slots] == pending[0];
    assert queue == (got + queue)[c.slots..] == rest;
  }

  lemma UnlockToRunOrdered(c: Config, s: State, a: Action)
    requires c.Valid() && Ordered(c, s) && Enabled(c, s, a) && a.UnlockToRun?
    ensures Ordered(c, Apply(c, s, a))
    ensures Pending(s) != [] && Pending(s)[0] == s.workers[a.w].got
    ensures Pending(Apply(c, s, a)) == Pending(s)[1..]
  {
    var s' := Apply(c, s, a);
    assert WorkerHolds(s.workers[a.w]);
    FirstJob(c, s.workers[a.w].got, s.queue, Pending(s));
    assert s'.taken == s'.posted[..|s'.taken|];
    assert Pending(s') == Pending(s)[1..];
  }

  lemma WakeOrdered(c: Config, s: State, target: Option<nat>)
    requires SignalTarget(s, target) && Ordered(c, s)
    ensures Ordered(c, s.Wake(target))
  {
  }

  lemma SignalOrdered(c: Config, s: State, a: Action)
    requires c.Valid() && Ordered(c, s) && Enabled(c, s, a) && (a.Signal? || a.PosterSignal? || a.StopSignal?)
    ensures Ordered(c, Apply(c, s, a))
  {
    if a.Signal? { MoveOrdered(c, s, a.w, BeforeWake(c, s, a).workers[a.w]); }
    WakeOrdered(c, BeforeWake(c, s, a), a.target);
  }

  lemma CallOrdered(c: Config, s: State, a: Action)
    requires c.Valid() && Ordered(c, s) && Enabled(c, s, a) && a.Call?
    ensures Ordered(c, Apply(c, s, a))
  {
  }

  lemma PosterLockOrdered(c: Config, s: State, a: Action)
    requires c.Valid() && Ordered(c, s) && Enabled(c, s, a) && a.PosterLock?
    ensures Ordered(c, Apply(c, s, a))
  {
    assert PosterOk(c, s.posters[a.p]);
  }

  lemma PosterUnlockOrdered(c: Config, s: State, a: Action)
    requires c.Valid() && Ordered(c, s) && Enabled(c, s, a) && a.PosterUnlock?
    ensures Ordered(c, Apply(c, s, a))
  {
  }

  // The words queued, before and after the push of one of them.
  lemma PushWords(c: Config, s: State, a: Action)
    requires c.Valid() && Ordered(c, s) && Enabled(c, s, a) && a.Push?
    ensures var job, pushed := s.posters[a.p].job, s.posters[a.p].pushed;
      && |job| == c.slots && pushed < c.slots && InHand(s) == []
      && Apply(c, s, a).queue == Flatten(Pending(s)) + job[..pushed + 1]
  {
    assert PosterHolds(s.posters[a.p]) && PosterOk(c, s.posters[a.p]);
    var job, pushed := s.posters[a.p].job, s.posters[a.p].pushed;
    assert InHand(s) == [] && HalfPosted(s) == job[..pushed];
    assert s.queue == Flatten(Pending(s)) + job[..pushed];
    assert job[..pushed] + [job[pushed]] == job[..pushed + 1];
  }

  lemma PushMore(c: Config, s: State, a: Action)
    requires c.Valid() && Ordered(c, s) && Enabled(c, s, a) && a.Push?
    requires s.posters[a.p].pushed + 1 < |s.posters[a.p].job|
    ensures var s' := Apply(c, s, a); InHand(s') + s'.queue == Flatten(Pending(s')) + HalfPosted(s')
  {
    var s' := Apply(c, s, a);
    PushWords(c, s, a);
    assert PosterHolds(s.posters[a.p]);
    assert Pending(s') == Pending(s) && InHand(s') + s'.queue == s'.queue;
  }

  lemma PushLast(c: Config, s: State, a: Action)
    requires c.Valid() && Ordered(c, s) && Enabled(c, s, a) && a.Push?
    requires s.posters[a.p].pushed + 1 == |s.posters[a.p].job|
    ensures var s' := Apply(c, s, a); InHand(s') + s'.queue == Flatten(Pending(s')) + HalfPosted(s')
  {
    var s', job := Apply(c, s, a), s.posters[a.p].job;
    PushWords(c, s, a);
    assert PosterHolds(s.posters[a.p]);
    assert job[..|job|] == job;
    FlattenAppend(Pending(s), job);
    assert Pending(s') == Pending(s) + [job];
    assert HalfPosted(s') == [] && InHand(s') + s'.queue == s'.queue;
  }

  lemma PushKeepsOrder(c: Config, s: State, a: Action)
    requires c.Valid() && Ordered(c, s) && Enabled(c, s, a) && a.Push?
    ensures var s' := Apply(c, s, a); InHand(s') + s'.queue == Flatten(Pending(s')) + HalfPosted(s')
  {
    if s.posters[a.p].pushed + 1 < |s.posters[a.p].job| {
      PushMore(c, s, a);
    } else {
      PushLast(c, s, a);
    }
  }

  lemma PushKeepsLock(c: Config, s: State, a: Action)
    requires LockIsExclusive(s) && Enabled(c, s, a) && a.Push?
    ensures LockIsExclusive(Apply(c, s, a))
    ensures forall i :: 0 <= i < |s.workers| ==> !WorkerHolds(s.workers[i])
  {
    assert PosterHolds(s.posters[a.p]);
  }

  lemma PushKeepsWorkers(c: Config, s: State, a: Action)
    requires LockIsExclusive(s) && Enabled(c, s, a) && a.Push?
    ensures var s' := Apply(c, s, a);
      s'.workers == s.workers && forall i :: 0 <= i < |s'.workers| ==> WorkerOk(c, s', s'.workers[i])
  {
    PushKeepsLock(c, s, a);
    forall i | 0 <= i < |s.workers| ensures WorkerOk(c, Apply(c, s, a), s.workers[i]) {
      assert !WorkerHolds(s.workers[i]);
    }
  }

  lemma PushKeepsPosters(c: Config, s: State, a: Action)
    requires Ordered(c, s) && Enabled(c, s, a) && a.Push?
    ensures var s' := Apply(c, s, a);
      && |s'.posters| == |s.posters| && (forall i :: 0 <= i < |s'.posters| ==> PosterOk(c, s'.posters[i]))
      && s'.taken == s.taken && s.posted <= s'.posted
      && (forall i :: 0 <= i < |s'.posted| ==> |s'.posted[i]| == c.slots)
  {
    var posters := Apply(c, s, a).posters;
    assert PosterOk(c, s.posters[a.p]);
    forall i | 0 <= i < |posters| ensures PosterOk(c, posters[i]) {
      assert i != a.p ==> posters[i] == s.posters[i];
    }
  }

  lemma PushOrdered(c: Config, s: State, a: Action)
    requires c.Valid() && Ordered(c, s) && Enabled(c, s, a) && a.Push?
    ensures Ordered(c, Apply(c, s, a))
  {
    PushKeepsLock(c, s, a);
    PushKeepsWorkers(c, s, a);
    PushKeepsPosters(c, s, a);
    PushKeepsOrder(c, s, a);
  }

  lemma OrderStep(c: Config, s: State, a: Action)
    requires c.Valid() && Ordered(c, s) && Enabled(c, s, a)
    ensures Ordered(c, Apply(c, s, a))
  {
    match a
    case GuardReadsQueue(_, _) => FreeMoveOrdered(c, s, a);
    case GuardReadsStop(_) => FreeMoveOrdered(c, s, a);
    case SpuriousWakeup(_) => FreeMoveOrdered(c, s, a);
    case Finish(_) => FreeMoveOrdered(c, s, a);
    case Lock(_) => LockOrdered(c, s, a);
    case Test(_) => TestOrdered(c, s, a);
    case Park(_) => ParkOrdered(c, s, a);
    case UnlockToExit(_) => UnlockToExitOrdered(c, s, a);
    case Pop(_) => PopOrdered(c, s, a);
    case UnlockToRun(_) => UnlockToRunOrdered(c, s, a);
    case Signal(_, _) => SignalOrdered(c, s, a);
    case PosterSignal(_, _) => SignalOrdered(c, s, a);
    case StopSignal(_) => SignalOrdered(c, s, a);
    case Push(_) => PushOrdered(c, s, a);
    case Call(_, _) => CallOrdered(c, s, a);
    case PosterLock(_) => PosterLockOrdered(c, s, a);
    case PosterUnlock(_) => PosterUnlockOrdered(c, s, a);
    case WriteStop =>
    case Reap =>
    case ReturnFromJoin =>
  }

  // Between critical sections the queue holds whole jobs and nothing else.
  lemma WholeJobsWhenFree(c: Config, s: State)
    requires Ordered(c, s) && s.lock.Free?
    ensures s.queue == Flatten(Pending(s))
  {
    assert InHand(s) == [] && HalfPosted(s) == [];
    assert s.queue == InHand(s) + s.queue;
    assert Flatten(Pending(s)) == Flatten(Pending(s)) + HalfPosted(s);
  }
}

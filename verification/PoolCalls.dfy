// What has been posted, in terms of the calls of post: every call posts its job once, and one
// thread's calls post their jobs in the order in which they are made.

module PoolCalls {
  import opened Sequences
  import opened Pool
  import opened PoolSafety
  import opened PoolShutdown

  function CallOf(a: Action): seq<Job> {
    if a.Call? then [a.job] else []
  }

  // The jobs with which post is called in a run.
  function Calls(run: seq<Action>): seq<Job> {
    if run == [] then [] else CallOf(run[0]) + Calls(run[1..])
  }

  // The job of a call that has not posted it yet.
  function InCall(p: Poster): seq<Job> {
    if p.Calling? || p.Pushing? then [p.job] else []
  }

  function Unposted(p: Poster): multiset<Job> { multiset(InCall(p)) }

  // ---- Any number of posters ----

  ghost function Handed(s: State): multiset<Job> {
    multiset(s.posted) + Gather(s.posters, Unposted)
  }

  lemma HandedMove(s: State, s': State, p: nat, job: seq<Job>)
    requires p < |s.posters| && |s'.posters| == |s.posters| && s'.posters == s.posters[p := s'.posters[p]]
    requires multiset(s'.posted) + Unposted(s'.posters[p])
      == multiset(s.posted) + Unposted(s.posters[p]) + multiset(job)
    ensures Handed(s') == Handed(s) + multiset(job)
  {
    GatherUpdate(s.posters, p, s'.posters[p], Unposted);
    Sums(multiset(s.posted), multiset(s'.posted), Gather(s.posters, Unposted), Gather(s'.posters, Unposted),
      Unposted(s.posters[p]), Unposted(s'.posters[p]), multiset(job));
  }

  lemma Sums(a: multiset<Job>, a': multiset<Job>, g: multiset<Job>, g': multiset<Job>, u: multiset<Job>,
      u': multiset<Job>, j: multiset<Job>)
    requires g' + u == g + u' && a' + u' == a + u + j
    ensures a' + g' == a + g + j
  {
    forall v ensures (a' + g')[v] == (a + g + j)[v] {
      assert (g' + u)[v] == (g + u')[v] && (a' + u')[v] == (a + u + j)[v];
    }
  }

  lemma PosterStep(c: Config, s: State, a: Action)
    requires Enabled(c, s, a) && (MovesOnePoster(a) || a.PosterSignal?)
    ensures var s' := Apply(c, s, a);
      && a.p < |s.posters| && |s'.posters| == |s.posters| && s'.posters == s.posters[a.p := s'.posters[a.p]]
      && s'.posted + InCall(s'.posters[a.p]) == s.posted + InCall(s.posters[a.p]) + CallOf(a)
  {
    if MovesOnePoster(a) { PosterFrame(c, s, a); } else { SignalKeepsWorkers(c, s, a); }
  }

  lemma OtherStep(c: Config, s: State, a: Action)
    requires Enabled(c, s, a) && !MovesOnePoster(a) && !a.PosterSignal?
    ensures Apply(c, s, a).posters == s.posters && Apply(c, s, a).posted == s.posted && CallOf(a) == []
  {
    if MovesOneWorker(a) {
      WorkerFrame(c, s, a);
    } else if a.Signal? || a.StopSignal? {
      SignalKeepsWorkers(c, s, a);
    }
  }

  lemma AsMultisets(a: seq<Job>, b: seq<Job>, d: seq<Job>, e: seq<Job>, f: seq<Job>)
    requires a + b == d + e + f
    ensures multiset(a) + multiset(b) == multiset(d) + multiset(e) + multiset(f)
  {
    assert multiset(a + b) == multiset(d + e + f);
  }

  lemma HandedStep(c: Config, s: State, a: Action)
    requires Enabled(c, s, a)
    ensures Handed(Apply(c, s, a)) == Handed(s) + multiset(CallOf(a))
  {
    var s' := Apply(c, s, a);
    if MovesOnePoster(a) || a.PosterSignal? {
      PosterStep(c, s, a);
      AsMultisets(s'.posted, InCall(s'.posters[a.p]), s.posted, InCall(s.posters[a.p]), CallOf(a));
      HandedMove(s, s', a.p, CallOf(a));
    } else {
      OtherStep(c, s, a);
    }
  }

  lemma {:induction false} HandedRun(c: Config, s: State, run: seq<Action>)
    requires IsRun(c, s, run)
    ensures Handed(After(c, s, run)) == Handed(s) + multiset(Calls(run))
    decreases |run|
  {
    if run != [] {
      HandedStep(c, s, run[0]);
      HandedRun(c, Apply(c, s, run[0]), run[1..]);
      assert multiset(Calls(run)) == multiset(CallOf(run[0])) + multiset(Calls(run[1..]));
    }
  }

  // When no call is under way, exactly the jobs of the calls have been posted.
  lemma {:induction false} CallsArePosted(c: Config, n: nat, m: nat, run: seq<Action>)
    requires IsRun(c, Init(n, m), run) && PostersIdle(After(c, Init(n, m), run))
    ensures multiset(After(c, Init(n, m), run).posted) == multiset(Calls(run))
  {
    HandedRun(c, Init(n, m), run);
    IdleHandsNothing(Init(n, m));
    IdleHandsNothing(After(c, Init(n, m), run));
  }

  lemma IdleHandsNothing(s: State)
    requires PostersIdle(s)
    ensures Handed(s) == multiset(s.posted)
  {
    GatherEmpty(s.posters, Unposted);
  }

  // ---- One poster ----

  lemma OrderedStep(c: Config, s: State, a: Action)
    requires Enabled(c, s, a) && |s.posters| == 1
    ensures var s' := Apply(c, s, a);
      |s'.posters| == 1 && s'.posted + InCall(s'.posters[0]) == s.posted + InCall(s.posters[0]) + CallOf(a)
  {
    if MovesOnePoster(a) || a.PosterSignal? {
      PosterStep(c, s, a);
    } else {
      OtherStep(c, s, a);
    }
  }

  lemma {:induction false} OrderedRun(c: Config, s: State, run: seq<Action>)
    requires IsRun(c, s, run) && |s.posters| == 1
    ensures var end := After(c, s, run);
      |end.posters| == 1 && end.posted + InCall(end.posters[0]) == s.posted + InCall(s.posters[0]) + Calls(run)
    decreases |run|
  {
    if run != [] {
      var next := Apply(c, s, run[0]);
      OrderedStep(c, s, run[0]);
      OrderedRun(c, next, run[1..]);
      var before := s.posted + InCall(s.posters[0]);
      assert before + CallOf(run[0]) + Calls(run[1..]) == before + (CallOf(run[0]) + Calls(run[1..]));
    }
  }

  // A single poster's jobs are posted in the order of its calls.
  lemma {:induction false} CallsArePostedInOrder(c: Config, n: nat, run: seq<Action>)
    requires IsRun(c, Init(n, 1), run)
    ensures var s := After(c, Init(n, 1), run);
      && |s.posters| == 1 && s.posted + InCall(s.posters[0]) == Calls(run)
      && (PostersIdle(s) ==> s.posted == Calls(run))
  {
    OrderedRun(c, Init(n, 1), run);
  }

  // ---- After _stop is written ----

  lemma {:induction false} NothingPostedAfterStop(c: Config, s: State, run: seq<Action>)
    requires Stopping(s) && OrderlyRun(c, s, run)
    ensures After(c, s, run).posted == s.posted
    decreases |run|
  {
    if run != [] {
      WhoMoves(c, s, run[0]);
      if MovesOneWorker(run[0]) {
        WorkerFrame(c, s, run[0]);
      } else if run[0].Signal? || run[0].StopSignal? {
        SignalKeepsWorkers(c, s, run[0]);
      }
      StoppingStep(c, s, run[0]);
      NothingPostedAfterStop(c, Apply(c, s, run[0]), run[1..]);
    }
  }
}

// No hang-up is lost: every one that was reported is about to be queued, is queued, was taken
// from the queue to be disconnected, or was cleared with the queue by disconnect-all.

module EndpointConservation {
  import opened Sequences
  import opened EndpointThreads

  function AboutToQueue(pc: Thread): multiset<Fd> {
    if pc.WantEnqueue? || pc.Enqueuing? then multiset{pc.fd} else multiset{}
  }

  ghost function Held(s: State): multiset<Fd> {
    Gather(s.threads, AboutToQueue) + multiset(s.queue)
  }

  function ReportedBy(a: Action): multiset<Fd> {
    if a.HangupEvent? then multiset{a.fd} else multiset{}
  }

  // What a pop hands to the thread to disconnect.
  ghost function TakenBy(s: State, a: Action): multiset<Fd>
    requires Enabled(s, a)
  {
    if a.PopHungup? && Apply(s, a).threads[a.t].WantDeregister? then multiset{Apply(s, a).threads[a.t].fd}
    else multiset{}
  }

  ghost function ClearedBy(s: State, a: Action): multiset<Fd>
    requires Enabled(s, a)
  {
    if a.ClearQueue? then multiset(s.queue) else multiset{}
  }

  function Reported(run: seq<Action>): multiset<Fd> {
    if run == [] then multiset{} else ReportedBy(run[0]) + Reported(run[1..])
  }

  ghost function Taken(s: State, run: seq<Action>): multiset<Fd>
    requires IsRun(s, run)
    decreases |run|
  {
    if run == [] then multiset{} else TakenBy(s, run[0]) + Taken(Apply(s, run[0]), run[1..])
  }

  ghost function Cleared(s: State, run: seq<Action>): multiset<Fd>
    requires IsRun(s, run)
    decreases |run|
  {
    if run == [] then multiset{} else ClearedBy(s, run[0]) + Cleared(Apply(s, run[0]), run[1..])
  }

  // ---- One step ----

  // The steps that report, queue, take or clear a hang-up.
  predicate Moves(a: Action) { a.HangupEvent? || a.Enqueue? || a.PopHungup? || a.ClearQueue? }

  predicate Carries(pc: Thread) { pc.WantEnqueue? || pc.Enqueuing? }

  ghost predicate Balanced(s: State, a: Action)
    requires Enabled(s, a)
  {
    var s' := Apply(s, a);
    AboutToQueue(s'.threads[a.t]) + multiset(s'.queue) + TakenBy(s, a) + ClearedBy(s, a)
    == AboutToQueue(s.threads[a.t]) + multiset(s.queue) + ReportedBy(a)
  }

  lemma NothingMoves(s: State, a: Action)
    requires Enabled(s, a) && !Moves(a) && !a.LockQueue?
    ensures Balanced(s, a)
  {
    assert Apply(s, a).queue == s.queue;
    assert !Carries(Apply(s, a).threads[a.t]) && !Carries(s.threads[a.t]);
  }

  lemma LockMovesNothing(s: State, a: Action)
    requires Enabled(s, a) && a.LockQueue?
    ensures Balanced(s, a)
  {
    var s' := Apply(s, a);
    assert s'.queue == s.queue && TakenBy(s, a) == ClearedBy(s, a) == ReportedBy(a) == multiset{};
    assert AboutToQueue(s'.threads[a.t]) == AboutToQueue(s.threads[a.t]);
  }

  lemma ReportMoves(s: State, a: Action)
    requires Enabled(s, a) && a.HangupEvent?
    ensures Balanced(s, a)
  {
  }

  lemma EnqueueMoves(s: State, a: Action)
    requires Enabled(s, a) && a.Enqueue?
    ensures Balanced(s, a)
  {
    assert multiset(Apply(s, a).queue) == multiset{s.threads[a.t].fd} + multiset(s.queue);
  }

  lemma PopMoves(s: State, a: Action)
    requires Enabled(s, a) && a.PopHungup?
    ensures Balanced(s, a)
  {
    assert s.queue == [s.queue[0]] + s.queue[1..];
  }

  lemma ClearMoves(s: State, a: Action)
    requires Enabled(s, a) && a.ClearQueue?
    ensures Balanced(s, a)
  {
  }

  lemma HoldStep(s: State, a: Action)
    requires Enabled(s, a)
    ensures Balanced(s, a)
  {
    if a.Enqueue? {
      EnqueueMoves(s, a);
    } else if a.PopHungup? {
      PopMoves(s, a);
    } else if a.LockQueue? {
      LockMovesNothing(s, a);
    } else if a.HangupEvent? {
      ReportMoves(s, a);
    } else if a.ClearQueue? {
      ClearMoves(s, a);
    } else {
      NothingMoves(s, a);
    }
  }

  lemma Balance(g: multiset<Fd>, g': multiset<Fd>, u: multiset<Fd>, u': multiset<Fd>, q: multiset<Fd>,
      q': multiset<Fd>, out: multiset<Fd>, cleared: multiset<Fd>, told: multiset<Fd>)
    requires g' + u == g + u' && u' + q' + out + cleared == u + q + told
    ensures g' + q' + out + cleared == g + q + told
  {
    forall v ensures (g' + q' + out + cleared)[v] == (g + q + told)[v] {
      assert (g' + u)[v] == (g + u')[v] && (u' + q' + out + cleared)[v] == (u + q + told)[v];
    }
  }

  lemma StepConserves(s: State, a: Action)
    requires Enabled(s, a)
    ensures Held(Apply(s, a)) + TakenBy(s, a) + ClearedBy(s, a) == Held(s) + ReportedBy(a)
  {
    var s' := Apply(s, a);
    OneMoves(s, a);
    HoldStep(s, a);
    GatherUpdate(s.threads, a.t, s'.threads[a.t], AboutToQueue);
    Balance(Gather(s.threads, AboutToQueue), Gather(s'.threads, AboutToQueue), AboutToQueue(s.threads[a.t]),
      AboutToQueue(s'.threads[a.t]), multiset(s.queue), multiset(s'.queue), TakenBy(s, a), ClearedBy(s, a),
      ReportedBy(a));
  }

  // ---- Whole runs ----

  lemma Sums(h: multiset<Fd>, h': multiset<Fd>, h'': multiset<Fd>, t: multiset<Fd>, t': multiset<Fd>,
      c: multiset<Fd>, c': multiset<Fd>, r: multiset<Fd>, r': multiset<Fd>)
    requires h' + t + c == h + r && h'' + t' + c' == h' + r'
    ensures h'' + (t + t') + (c + c') == h + (r + r')
  {
    forall v ensures (h'' + (t + t') + (c + c'))[v] == (h + (r + r'))[v] {
      assert (h' + t + c)[v] == (h + r)[v] && (h'' + t' + c')[v] == (h' + r')[v];
    }
  }

  lemma {:induction false} RunConserves(s: State, run: seq<Action>)
    requires IsRun(s, run)
    ensures Held(After(s, run)) + Taken(s, run) + Cleared(s, run) == Held(s) + Reported(run)
    decreases |run|
  {
    if run != [] {
      var next, rest := Apply(s, run[0]), run[1..];
      StepConserves(s, run[0]);
      RunConserves(next, rest);
      Sums(Held(s), Held(next), Held(After(next, rest)), TakenBy(s, run[0]), Taken(next, rest),
        ClearedBy(s, run[0]), Cleared(next, rest), ReportedBy(run[0]), Reported(rest));
    }
  }

  // For any number of threads and any interleaving.
  lemma {:induction false} HangupsAreConserved(n: nat, run: seq<Action>)
    requires IsRun(Init(n), run)
    ensures var s := After(Init(n), run);
      Reported(run)
      == Gather(s.threads, AboutToQueue) + multiset(s.queue) + Taken(Init(n), run) + Cleared(Init(n), run)
  {
    RunConserves(Init(n), run);
    GatherEmpty(Init(n).threads, AboutToQueue);
    assert Held(Init(n)) + Reported(run) == Reported(run);
  }

  // Once disconnect-all has cleared the queue, it stays empty until something is queued again.
  lemma {:induction false} StaysEmpty(s: State, run: seq<Action>)
    requires IsRun(s, run) && s.queue == [] && forall i :: 0 <= i < |run| ==> !run[i].Enqueue?
    ensures After(s, run).queue == []
    decreases |run|
  {
    if run != [] {
      assert forall i :: 0 <= i < |run[1..]| ==> run[1..][i] == run[i + 1];
      StaysEmpty(Apply(s, run[0]), run[1..]);
    }
  }

  lemma {:induction false} ClearedIsEmpty(s: State, t: nat, run: seq<Action>)
    requires Enabled(s, ClearQueue(t)) && IsRun(Apply(s, ClearQueue(t)), run)
    requires forall i :: 0 <= i < |run| ==> !run[i].Enqueue?
    ensures After(Apply(s, ClearQueue(t)), run).queue == []
  {
    StaysEmpty(Apply(s, ClearQueue(t)), run);
  }
}

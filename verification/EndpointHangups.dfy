// The queue of hung-up clients. When the callers are stricter still - a client that is queued,
// or about to be, is left to endpoint_close_hungups, and is queued once - every queued
// descriptor is a client, and closing the queue needs no assumption of its own.

module EndpointHangups {
  import opened Sequences
  import opened EndpointThreads
  import opened EndpointReuse

  // The descriptor that a thread is about to queue, or is disconnecting.
  function Claimed(pc: Thread): Option<Fd> {
    match pc
    case WantEnqueue(fd) => Some(fd)
    case Enqueuing(fd) => Some(fd)
    case _ => Leaving(pc)
  }

  ghost predicate Unclaimed(s: State, fd: Fd) {
    fd !in s.queue && forall i :: 0 <= i < |s.threads| ==> Claimed(s.threads[i]) != Some(fd)
  }

  ghost predicate Strict(s: State, a: Action) {
    match a
    case HangupEvent(_, fd) => fd in s.registered && Unclaimed(s, fd)
    case CallDisconnect(_, fd) => fd in s.registered && Unclaimed(s, fd)
    case PickClient(_, fd) => Unclaimed(s, fd)
    case _ => true
  }

  ghost predicate Client(s: State, fd: Fd) {
    fd in s.registered && fd in s.open && fd in s.selector
  }

  ghost predicate ClaimOk(s: State, pc: Thread) {
    pc.WantEnqueue? || pc.Enqueuing? ==> Client(s, pc.fd)
  }

  // Each descriptor is claimed once, by a thread or by a queue entry.
  ghost predicate Claims(s: State) {
    && (forall i :: 0 <= i < |s.threads| ==> ClaimOk(s, s.threads[i]))
    && (forall i, j :: 0 <= i < j < |s.threads| && Claimed(s.threads[i]).Some? ==>
          Claimed(s.threads[i]) != Claimed(s.threads[j]))
  }

  ghost predicate QueueOk(s: State) {
    && (forall k :: 0 <= k < |s.queue| ==> Client(s, s.queue[k]))
    && (forall k, l :: 0 <= k < l < |s.queue| ==> s.queue[k] != s.queue[l])
    && (forall k, i :: 0 <= k < |s.queue| && 0 <= i < |s.threads| ==> Claimed(s.threads[i]) != Some(s.queue[k]))
  }

  ghost predicate Queueing(s: State) {
    Claims(s) && QueueOk(s)
  }

  // ---- Strictness implies that no connection is disconnected twice ----

  lemma StrictIsDisciplined(s: State, a: Action)
    requires Queueing(s) && Enabled(s, a) && Strict(s, a)
    ensures Disciplined(s, a)
  {
    match a
    case PopHungup(_) =>
      assert Client(s, s.queue[0]);
      forall i | 0 <= i < |s.threads| ensures Leaving(s.threads[i]) != Some(s.queue[0]) {
        assert Claimed(s.threads[i]) != Some(s.queue[0]);
      }
    case CallDisconnect(_, fd) => UnclaimedStays(s, fd);
    case PickClient(_, fd) => UnclaimedStays(s, fd);
    case _ =>
  }

  lemma UnclaimedStays(s: State, fd: Fd)
    requires Unclaimed(s, fd)
    ensures NobodyLeaves(s, fd)
  {
    forall i | 0 <= i < |s.threads| ensures Leaving(s.threads[i]) != Some(fd) {
      assert Claimed(s.threads[i]) != Some(fd);
    }
  }

  // ---- The claims are kept ----

  // Thread t moves; what it claims afterwards it claimed before, or nobody did. Only what it
  // claims can cease to be a client.
  ghost predicate Moves(s: State, s': State, t: nat) {
    && t < |s.threads| && |s'.threads| == |s.threads| && s'.threads == s.threads[t := s'.threads[t]]
    && (forall x: Fd :: Client(s, x) && !Client(s', x) ==>
          Claimed(s.threads[t]) == Some(x) || Claimed(s'.threads[t]) == Some(x))
  }

  ghost predicate KeepsClaim(s: State, s': State, t: nat) {
    && Moves(s, s', t) && s'.queue == s.queue
    && (Claimed(s'.threads[t]).Some? ==>
          Claimed(s'.threads[t]) == Claimed(s.threads[t]) || Unclaimed(s, Claimed(s'.threads[t]).value))
    && ClaimOk(s', s'.threads[t])
  }

  lemma ClaimsKept(s: State, s': State, t: nat)
    requires Queueing(s) && KeepsClaim(s, s', t)
    ensures Queueing(s')
  {
    forall i | 0 <= i < |s.threads| && i != t ensures ClaimOk(s', s'.threads[i]) {
      assert ClaimOk(s, s.threads[i]);
      assert Claimed(s.threads[i]).Some? ==> Claimed(s.threads[i]) != Claimed(s.threads[t]) by {
        if i > t { assert Claimed(s.threads[t]).Some? ==> Claimed(s.threads[t]) != Claimed(s.threads[i]); }
      }
      assert Claimed(s.threads[i]).Some? ==> Claimed(s.threads[i]) != Claimed(s'.threads[t]);
    }
    forall k | 0 <= k < |s.queue| ensures Client(s', s.queue[k]) {
      assert Client(s, s.queue[k]) && Claimed(s.threads[t]) != Some(s.queue[k]);
    }
  }

  lemma EnqueueKeeps(s: State, a: Action)
    requires Queueing(s) && Enabled(s, a) && a.Enqueue?
    ensures Queueing(Apply(s, a))
  {
    var s', t := Apply(s, a), a.t;
    var fd := s.threads[t].fd;
    assert ClaimOk(s, s.threads[t]) && Claimed(s.threads[t]) == Some(fd);
    forall i | 0 <= i < |s.threads| && i != t ensures ClaimOk(s', s'.threads[i]) && Claimed(s'.threads[i]) != Some(fd) {
      assert ClaimOk(s, s.threads[i]);
      if i < t { assert Claimed(s.threads[i]).Some? ==> Claimed(s.threads[i]) != Claimed(s.threads[t]); }
    }
    forall k | 0 <= k < |s'.queue| ensures Client(s', s'.queue[k]) {
      assert k > 0 ==> Client(s, s.queue[k - 1]);
    }
  }

  lemma PopKeeps(s: State, a: Action)
    requires Queueing(s) && Enabled(s, a) && a.PopHungup?
    ensures Queueing(Apply(s, a))
  {
    var s', t := Apply(s, a), a.t;
    assert forall k :: 0 <= k < |s'.queue| ==> s'.queue[k] == s.queue[k + 1];
    forall i | 0 <= i < |s.threads| ensures ClaimOk(s', s'.threads[i]) {
      assert i != t ==> ClaimOk(s, s.threads[i]);
    }
    forall k | 0 <= k < |s'.queue| ensures Client(s', s'.queue[k]) {
      assert Client(s, s.queue[k + 1]);
    }
  }

  lemma ClearKeeps(s: State, a: Action)
    requires Queueing(s) && Enabled(s, a) && a.ClearQueue?
    ensures Queueing(Apply(s, a))
  {
    var s' := Apply(s, a);
    forall i | 0 <= i < |s.threads| ensures ClaimOk(s', s'.threads[i]) {
      assert ClaimOk(s, s.threads[i]);
    }
  }

  // Steps that take a lock, begin a call or finish one.
  lemma NeutralClaims(s: State, a: Action)
    requires Queueing(s) && Enabled(s, a)
    requires a.LockClients? || a.LockQueue? || a.CallCloseHungups? || a.CallDisconnectAll? || a.EndAll? || a.EndHungups?
    ensures KeepsClaim(s, Apply(s, a), a.t)
  {
    assert ClaimOk(s, s.threads[a.t]);
  }

  lemma ArrivalClaims(s: State, a: Action)
    requires Queueing(s) && Enabled(s, a) && (a.AcceptReturns? || a.Register? || a.AddToSelector?)
    ensures KeepsClaim(s, Apply(s, a), a.t)
  {
  }

  lemma DisconnectClaims(s: State, a: Action)
    requires Queueing(s) && Enabled(s, a) && Strict(s, a)
    requires a.CallDisconnect? || a.PickClient? || a.Deregister? || a.DeleteFromSelector? || a.Close?
    ensures KeepsClaim(s, Apply(s, a), a.t)
  {
  }

  lemma OtherClaims(s: State, a: Action)
    requires Queueing(s) && Enabled(s, a) && Strict(s, a)
    requires !a.Enqueue? && !a.PopHungup? && !a.ClearQueue? && !a.HangupEvent?
    ensures KeepsClaim(s, Apply(s, a), a.t)
  {
    if a.AcceptReturns? || a.Register? || a.AddToSelector? {
      ArrivalClaims(s, a);
    } else if a.CallDisconnect? || a.PickClient? || a.Deregister? || a.DeleteFromSelector? || a.Close? {
      DisconnectClaims(s, a);
    } else {
      NeutralClaims(s, a);
    }
  }

  lemma HangupKeeps(s: State, a: Action)
    requires Inv(s) && Queueing(s) && Enabled(s, a) && Strict(s, a) && a.HangupEvent?
    ensures Queueing(Apply(s, a))
  {
    assert Recorded(s, a.fd);
    ClaimsKept(s, Apply(s, a), a.t);
  }

  lemma StepKeepsQueueing(s: State, a: Action)
    requires Inv(s) && Queueing(s) && Enabled(s, a) && Strict(s, a)
    ensures Queueing(Apply(s, a))
  {
    match a
    case Enqueue(_) => EnqueueKeeps(s, a);
    case PopHungup(_) => PopKeeps(s, a);
    case ClearQueue(_) => ClearKeeps(s, a);
    case HangupEvent(_, _) => HangupKeeps(s, a);
    case _ =>
      OtherClaims(s, a);
      ClaimsKept(s, Apply(s, a), a.t);
  }

  ghost predicate StrictRun(s: State, run: seq<Action>)
    decreases |run|
  {
    run == [] || (Enabled(s, run[0]) && Strict(s, run[0]) && StrictRun(Apply(s, run[0]), run[1..]))
  }

  lemma {:induction false} StrictRunKeeps(s: State, run: seq<Action>)
    requires Inv(s) && Queueing(s) && StrictRun(s, run)
    ensures DisciplinedRun(s, run) && IsRun(s, run) && Queueing(After(s, run))
    decreases |run|
  {
    if run != [] {
      StrictIsDisciplined(s, run[0]);
      StepKeepsInv(s, run[0]);
      StepKeepsQueueing(s, run[0]);
      StrictRunKeeps(Apply(s, run[0]), run[1..]);
    }
  }

  // Whoever drains the queue finds a client in every entry, and no connection is ever
  // disconnected twice.
  lemma {:induction false} QueuedAreClients(n: nat, run: seq<Action>)
    requires StrictRun(Init(n), run)
    ensures DisciplinedRun(Init(n), run) && IsRun(Init(n), run)
    ensures forall fd :: fd in After(Init(n), run).queue ==> Client(After(Init(n), run), fd)
  {
    StrictRunKeeps(Init(n), run);
  }
}

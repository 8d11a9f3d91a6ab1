// The endpoint's two locks cannot deadlock, whatever calls the threads make.

module EndpointLocks {
  import opened Sequences
  import opened EndpointThreads

  ghost predicate LocksHeld(s: State) {
    && (s.clientLock.Some? ==> s.clientLock.value < |s.threads| && HoldsClients(s.threads[s.clientLock.value]))
    && (s.queueLock.Some? ==> s.queueLock.value < |s.threads| && HoldsQueue(s.threads[s.queueLock.value]))
    && (forall i :: 0 <= i < |s.threads| ==> (HoldsClients(s.threads[i]) <==> s.clientLock == Some(i)))
    && (forall i :: 0 <= i < |s.threads| ==> (HoldsQueue(s.threads[i]) <==> s.queueLock == Some(i)))
  }

  // Steps after which the thread holds what it held before.
  lemma SameLocks(s: State, a: Action)
    requires LocksHeld(s) && Enabled(s, a)
    requires a.AcceptReturns? || a.AddToSelector? || a.HangupEvent? || a.CallCloseHungups? || a.PopHungup?
    ensures LocksHeld(Apply(s, a))
  {
  }

  lemma SameLocksInDisconnect(s: State, a: Action)
    requires LocksHeld(s) && Enabled(s, a) && (a.CallDisconnect? || a.DeleteFromSelector? || a.Close?)
    ensures LocksHeld(Apply(s, a))
  {
  }

  lemma SameLocksInDisconnectAll(s: State, a: Action)
    requires LocksHeld(s) && Enabled(s, a) && (a.CallDisconnectAll? || a.PickClient?)
    ensures LocksHeld(Apply(s, a))
  {
  }

  lemma ClientLockMoves(s: State, a: Action)
    requires LocksHeld(s) && Enabled(s, a)
    requires a.LockClients? || a.Register? || a.Deregister? || a.EndAll?
    ensures LocksHeld(Apply(s, a))
  {
  }

  lemma QueueLockMoves(s: State, a: Action)
    requires LocksHeld(s) && Enabled(s, a)
    requires a.LockQueue? || a.Enqueue? || a.EndHungups? || a.ClearQueue?
    ensures LocksHeld(Apply(s, a))
  {
  }

  lemma LockStep(s: State, a: Action)
    requires LocksHeld(s) && Enabled(s, a)
    ensures LocksHeld(Apply(s, a))
  {
    if a.LockClients? || a.Register? || a.Deregister? || a.EndAll? {
      ClientLockMoves(s, a);
    } else if a.LockQueue? || a.Enqueue? || a.EndHungups? || a.ClearQueue? {
      QueueLockMoves(s, a);
    } else if a.CallDisconnect? || a.DeleteFromSelector? || a.Close? {
      SameLocksInDisconnect(s, a);
    } else if a.CallDisconnectAll? || a.PickClient? {
      SameLocksInDisconnectAll(s, a);
    } else {
      SameLocks(s, a);
    }
  }

  lemma {:induction false} LockRun(s: State, run: seq<Action>)
    requires LocksHeld(s) && IsRun(s, run)
    ensures LocksHeld(After(s, run))
    decreases |run|
  {
    if run != [] {
      LockStep(s, run[0]);
      LockRun(Apply(s, run[0]), run[1..]);
    }
  }

  // No thread waits for a lock it holds, and none waits for the queue lock while it holds
  // the client lock.
  lemma {:induction false} NoRelock(n: nat, run: seq<Action>, t: nat)
    requires IsRun(Init(n), run) && t < |After(Init(n), run).threads|
    ensures var s := After(Init(n), run);
      && (WantsClients(s.threads[t]) ==> s.clientLock != Some(t))
      && (WantsQueue(s.threads[t]) ==> s.queueLock != Some(t) && s.clientLock != Some(t))
  {
    LockRun(Init(n), run);
  }

  // A thread that is in a call, and not waiting for a lock, can step.
  lemma CallCanStep(s: State, t: nat) returns (a: Action)
    requires t < |s.threads|
    requires !s.threads[t].Idle? && !WantsClients(s.threads[t]) && !WantsQueue(s.threads[t])
    ensures Enabled(s, a) && a.t == t
  {
    match s.threads[t]
    case Registering(_) => a := Register(t);
    case Adding(_) => a := AddToSelector(t);
    case Enqueuing(_) => a := Enqueue(t);
    case Hungups => a := if s.queue == [] then EndHungups(t) else PopHungup(t);
    case Deregistering(_, _) => a := Deregister(t);
    case Deleting(_, _) => a := DeleteFromSelector(t);
    case Closing(_, _) => a := Close(t);
    case ClosingAll(todo) =>
      if todo == {} {
        a := EndAll(t);
      } else {
        var fd :| fd in todo;
        a := PickClient(t, fd);
      }
    case AllDeleting(_, _) => a := DeleteFromSelector(t);
    case AllClosing(_, _) => a := Close(t);
    case Clearing => a := ClearQueue(t);
  }

  // A thread that wants the client lock gets it, or its holder can step.
  lemma ClientLockMovesOn(s: State, t: nat) returns (a: Action)
    requires LocksHeld(s) && t < |s.threads| && WantsClients(s.threads[t])
    ensures Enabled(s, a) && !s.threads[a.t].Idle?
  {
    match s.clientLock
    case None => a := LockClients(t);
    case Some(h) => a := CallCanStep(s, h);
  }

  // While any thread is inside a call, one that is can take a step.
  lemma NoDeadlock(n: nat, run: seq<Action>, t: nat) returns (a: Action)
    requires IsRun(Init(n), run)
    requires t < |After(Init(n), run).threads| && !After(Init(n), run).threads[t].Idle?
    ensures Enabled(After(Init(n), run), a) && !After(Init(n), run).threads[a.t].Idle?
  {
    var s := After(Init(n), run);
    LockRun(Init(n), run);
    if WantsClients(s.threads[t]) {
      a := ClientLockMovesOn(s, t);
    } else if WantsQueue(s.threads[t]) {
      match s.queueLock
      case None => a := LockQueue(t);
      case Some(h) =>
        if WantsClients(s.threads[h]) {
          a := ClientLockMovesOn(s, h);
        } else {
          a := CallCanStep(s, h);
        }
    } else {
      a := CallCanStep(s, t);
    }
  }
}

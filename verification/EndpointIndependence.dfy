// Threads of the endpoint stand in each other's way only at its locks and in the kernel. A step
// that a thread can take stays possible whatever step another thread takes first, unless both
// take the same lock, the kernel hands the descriptor to the other, or a client is taken out of
// the selector before its hang-up is reported.

module EndpointIndependence {
  import opened EndpointThreads
  import opened EndpointLocks

  predicate SameLock(a: Action, b: Action) {
    (a.LockClients? && b.LockClients?) || (a.LockQueue? && b.LockQueue?)
  }

  // The kernel can give a descriptor to one accept only.
  predicate SameDescriptor(a: Action, b: Action) {
    a.AcceptReturns? && b.AcceptReturns? && a.fd == b.fd
  }

  // a takes the client of b's event out of the selector.
  predicate Silences(s: State, a: Action, b: Action)
    requires a.t < |s.threads|
  {
    && b.HangupEvent? && (a.DeleteFromSelector? || a.Close?)
    && var pc := s.threads[a.t];
       (pc.Deleting? || pc.AllDeleting? || pc.Closing? || pc.AllClosing?) && pc.fd == b.fd
  }

  // The queue changes only under its lock.
  lemma QueueIsHeld(s: State, a: Action, b: Action)
    requires LocksHeld(s) && Enabled(s, a) && Enabled(s, b) && a.t != b.t && (b.PopHungup? || b.EndHungups?)
    ensures Apply(s, a).queue == s.queue
  {
    assert HoldsQueue(s.threads[b.t]) && !HoldsQueue(s.threads[a.t]);
  }

  lemma StepsAreIndependent(s: State, a: Action, b: Action)
    requires LocksHeld(s) && Enabled(s, a) && Enabled(s, b) && a.t != b.t
    requires !SameLock(a, b) && !SameDescriptor(a, b) && !Silences(s, a, b)
    ensures Enabled(Apply(s, a), b)
  {
    OneMoves(s, a);
    if b.PopHungup? || b.EndHungups? { QueueIsHeld(s, a, b); }
  }
}

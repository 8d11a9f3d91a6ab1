// The client record against a kernel that reuses descriptors. Assumed of the callers: no
// connection is disconnected twice. A disconnect may start only for a registered client that
// nobody is disconnecting; hang-ups may be reported, repeated and queued freely, and
// disconnect-all may walk clients that are queued or half accepted. Then every registered
// descriptor is open, and a descriptor nobody is working on is registered exactly when it
// is an open client in the selector.

module EndpointReuse {
  import opened Sequences
  import opened EndpointThreads
  import opened EndpointLocks

  // The descriptor a thread is taking in, between accept and its registration.
  function Arriving(pc: Thread): Option<Fd> {
    match pc
    case WantRegister(fd) => Some(fd)
    case Registering(fd) => Some(fd)
    case _ => None
  }

  // The descriptor a thread is disconnecting.
  function Leaving(pc: Thread): Option<Fd> {
    match pc
    case WantDeregister(fd, _) => Some(fd)
    case Deregistering(fd, _) => Some(fd)
    case Deleting(fd, _) => Some(fd)
    case Closing(fd, _) => Some(fd)
    case AllDeleting(fd, _) => Some(fd)
    case AllClosing(fd, _) => Some(fd)
    case _ => None
  }

  function Owned(pc: Thread): Option<Fd> {
    if Arriving(pc).Some? then Arriving(pc) else Leaving(pc)
  }

  // The descriptor a thread is working on: it also adds registered ones to the selector.
  function Target(pc: Thread): Option<Fd> {
    if pc.Adding? then Some(pc.fd) else Owned(pc)
  }

  ghost predicate Unowned(s: State, fd: Fd) {
    forall i :: 0 <= i < |s.threads| ==> Owned(s.threads[i]) != Some(fd)
  }

  // No thread is working on fd. It may be queued.
  ghost predicate Quiet(s: State, fd: Fd) {
    forall i :: 0 <= i < |s.threads| ==> Target(s.threads[i]) != Some(fd)
  }

  ghost predicate NobodyLeaves(s: State, fd: Fd) {
    forall i :: 0 <= i < |s.threads| ==> Leaving(s.threads[i]) != Some(fd)
  }

  // Each connection is disconnected at most once: a disconnect starts only for a client on
  // record whose disconnect has not started.
  ghost predicate Disciplined(s: State, a: Action) {
    match a
    case PopHungup(_) => s.queue != [] ==> s.queue[0] in s.registered && NobodyLeaves(s, s.queue[0])
    case CallDisconnect(_, fd) => fd in s.registered && NobodyLeaves(s, fd)
    case PickClient(_, fd) => NobodyLeaves(s, fd)
    case _ => true
  }

  // ---- What holds of a descriptor at each point of its life ----

  ghost predicate OwnedOk(s: State, pc: Thread) {
    match pc
    case WantRegister(fd) => fd in s.open && fd !in s.registered
    case Registering(fd) => fd in s.open && fd !in s.registered
    case WantDeregister(fd, _) => fd in s.open && fd in s.registered
    case Deregistering(fd, _) => fd in s.open && fd in s.registered
    case Deleting(fd, _) => fd in s.open && fd !in s.registered
    case Closing(fd, _) => fd in s.open && fd !in s.registered
    case AllDeleting(fd, _) => fd in s.open && fd !in s.registered
    case AllClosing(fd, _) => fd in s.open && fd !in s.registered
    case _ => true
  }

  ghost predicate Owners(s: State) {
    && (forall i :: 0 <= i < |s.threads| ==> OwnedOk(s, s.threads[i]))
    && (forall i, j :: 0 <= i < j < |s.threads| && Owned(s.threads[i]).Some? ==>
          Owned(s.threads[i]) != Owned(s.threads[j]))
  }

  // The walk of disconnect-all still has to visit exactly what is registered.
  ghost predicate TodoOk(s: State, pc: Thread) {
    pc.ClosingAll? || pc.AllDeleting? || pc.AllClosing? ==> pc.todo == s.registered
  }

  // Someone is about to add fd to the selector. It may be a thread that accepted an earlier
  // connection of the same descriptor.
  ghost predicate ToBeAdded(s: State, fd: Fd) {
    exists i :: 0 <= i < |s.threads| && s.threads[i] == Adding(fd)
  }

  ghost predicate Recorded(s: State, fd: Fd) {
    && (fd in s.selector ==> fd in s.open)
    && (fd in s.registered && fd !in s.selector ==> ToBeAdded(s, fd))
    && (Unowned(s, fd) ==> (fd in s.registered <==> fd in s.open))
  }

  // What the record promises of a descriptor that is left alone.
  ghost predicate Agrees(s: State, fd: Fd) {
    (fd in s.registered <==> fd in s.open) && (fd in s.open <==> fd in s.selector)
  }

  ghost predicate Inv(s: State) {
    && LocksHeld(s) && Owners(s)
    && (forall i :: 0 <= i < |s.threads| ==> TodoOk(s, s.threads[i]))
    && (forall fd :: Recorded(s, fd))
  }

  // ---- Every disciplined step keeps it ----

  // A step of thread t that changes what is true of `fd` alone.
  ghost predicate OnlyAbout(s: State, s': State, t: nat, fd: Fd) {
    && t < |s.threads| && |s'.threads| == |s.threads|
    && (forall i :: 0 <= i < |s.threads| && i != t ==> s'.threads[i] == s.threads[i])
    && (Target(s.threads[t]).Some? ==> Target(s.threads[t]) == Some(fd))
    && (Target(s'.threads[t]).Some? ==> Target(s'.threads[t]) == Some(fd))
    && (forall x :: x != fd ==>
          && (x in s'.registered <==> x in s.registered)
          && (x in s'.open <==> x in s.open)
          && (x in s'.selector <==> x in s.selector))
  }

  ghost predicate OthersDisown(s: State, t: nat, fd: Fd) {
    forall i :: 0 <= i < |s.threads| && i != t ==> Owned(s.threads[i]) != Some(fd)
  }

  lemma OwnersKept(s: State, s': State, t: nat, fd: Fd)
    requires Owners(s) && OnlyAbout(s, s', t, fd) && OthersDisown(s, t, fd)
    requires OwnedOk(s', s'.threads[t])
    ensures Owners(s')
  {
    forall i | 0 <= i < |s'.threads| ensures OwnedOk(s', s'.threads[i]) {
      assert i != t ==> OwnedOk(s, s.threads[i]);
    }
  }

  lemma RecordedKept(s: State, s': State, t: nat, fd: Fd, x: Fd)
    requires Recorded(s, x) && OnlyAbout(s, s', t, fd) && x != fd
    ensures Recorded(s', x)
  {
    if x in s.registered && x !in s.selector {
      var i :| 0 <= i < |s.threads| && s.threads[i] == Adding(x);
      assert s'.threads[i] == Adding(x);
    }
    if Unowned(s', x) {
      assert forall i :: 0 <= i < |s.threads| && i != t ==> Owned(s'.threads[i]) != Some(x);
      assert Unowned(s, x);
    }
  }

  lemma AllRecorded(s: State, s': State, t: nat, fd: Fd)
    requires (forall x :: Recorded(s, x)) && OnlyAbout(s, s', t, fd) && Recorded(s', fd)
    ensures forall x :: Recorded(s', x)
  {
    forall x: Fd ensures Recorded(s', x) {
      if x != fd { RecordedKept(s, s', t, fd, x); }
    }
  }

  // Nobody else owns a descriptor that a thread owns.
  lemma OwnerIsAlone(s: State, t: nat, fd: Fd)
    requires Owners(s) && t < |s.threads| && Owned(s.threads[t]) == Some(fd)
    ensures OthersDisown(s, t, fd)
  {
    forall i | 0 <= i < |s.threads| && i != t ensures Owned(s.threads[i]) != Some(fd) {
      if i < t { assert Owned(s.threads[i]) != Owned(s.threads[t]); }
    }
  }

  lemma ClosedIsUnowned(s: State, fd: Fd)
    requires Owners(s) && fd !in s.open
    ensures Unowned(s, fd)
  {
    forall i | 0 <= i < |s.threads| ensures Owned(s.threads[i]) != Some(fd) {
      assert OwnedOk(s, s.threads[i]);
    }
  }

  lemma RegisteredIsOpen(s: State, fd: Fd)
    requires Owners(s) && Recorded(s, fd) && fd in s.registered
    ensures fd in s.open
  {
    if !Unowned(s, fd) {
      var i :| 0 <= i < |s.threads| && Owned(s.threads[i]) == Some(fd);
      assert OwnedOk(s, s.threads[i]);
    }
  }

  // A registered client that nobody disconnects is nobody's.
  lemma ClientIsUnowned(s: State, fd: Fd)
    requires Owners(s) && fd in s.registered && NobodyLeaves(s, fd)
    ensures Unowned(s, fd)
  {
    forall i | 0 <= i < |s.threads| ensures Owned(s.threads[i]) != Some(fd) {
      assert OwnedOk(s, s.threads[i]);
    }
  }

  // Taking a lock, starting a call that has no descriptor yet and handling the queue change
  // no fact about any descriptor.
  lemma NeutralFacts(s: State, s': State, t: nat)
    requires Owners(s) && (forall x :: Recorded(s, x))
    requires t < |s.threads| && |s'.threads| == |s.threads| && s'.threads == s.threads[t := s'.threads[t]]
    requires s'.registered == s.registered && s'.open == s.open && s'.selector == s.selector
    requires Target(s'.threads[t]) == Target(s.threads[t]) && Owned(s'.threads[t]) == Owned(s.threads[t])
    requires !s.threads[t].Adding?
    requires OwnedOk(s, s.threads[t]) ==> OwnedOk(s', s'.threads[t])
    ensures Owners(s') && (forall x :: Recorded(s', x))
  {
    assert forall i :: 0 <= i < |s.threads| ==> Owned(s'.threads[i]) == Owned(s.threads[i]);
    forall i | 0 <= i < |s'.threads| ensures OwnedOk(s', s'.threads[i]) {
      assert OwnedOk(s, s.threads[i]);
    }
    forall x: Fd ensures Recorded(s', x) { NeutralRecorded(s, s', t, x); }
  }

  lemma NeutralRecorded(s: State, s': State, t: nat, x: Fd)
    requires Recorded(s, x) && t < |s.threads| && |s'.threads| == |s.threads|
    requires s'.threads == s.threads[t := s'.threads[t]] && !s.threads[t].Adding?
    requires s'.registered == s.registered && s'.open == s.open && s'.selector == s.selector
    requires Owned(s'.threads[t]) == Owned(s.threads[t])
    ensures Recorded(s', x)
  {
    if x in s.registered && x !in s.selector {
      var i :| 0 <= i < |s.threads| && s.threads[i] == Adding(x);
      assert s'.threads[i] == Adding(x);
    }
    if Unowned(s', x) {
      forall i | 0 <= i < |s.threads| ensures Owned(s.threads[i]) != Some(x) {
        assert Owned(s'.threads[i]) != Some(x);
      }
    }
  }

  predicate Neutral(a: Action) {
    || a.LockClients? || a.LockQueue? || a.CallCloseHungups? || a.CallDisconnectAll? || a.EndAll? || a.EndHungups?
    || a.HangupEvent? || a.Enqueue? || a.ClearQueue?
  }

  lemma NeutralMove(s: State, a: Action)
    requires Enabled(s, a) && Neutral(a) && TodoOk(s, s.threads[a.t])
    ensures var s', t := Apply(s, a), a.t;
      && s'.registered == s.registered && s'.open == s.open && s'.selector == s.selector
      && Target(s'.threads[t]) == Target(s.threads[t]) && Owned(s'.threads[t]) == Owned(s.threads[t])
      && (OwnedOk(s, s.threads[t]) ==> OwnedOk(s', s'.threads[t])) && TodoOk(s', s'.threads[t])
      && !s.threads[t].Adding?
  {
  }

  lemma NeutralStep(s: State, a: Action)
    requires Inv(s) && Enabled(s, a) && Neutral(a)
    ensures Inv(Apply(s, a))
  {
    assert TodoOk(s, s.threads[a.t]);
    OneMoves(s, a);
    LockStep(s, a);
    NeutralMove(s, a);
    NeutralFacts(s, Apply(s, a), a.t);
    forall i | 0 <= i < |s.threads| && i != a.t ensures TodoOk(Apply(s, a), Apply(s, a).threads[i]) {
      assert TodoOk(s, s.threads[i]);
    }
  }

  lemma AcceptStep(s: State, a: Action)
    requires Inv(s) && Enabled(s, a) && a.AcceptReturns?
    ensures Inv(Apply(s, a))
  {
    var s', t, fd := Apply(s, a), a.t, a.fd;
    LockStep(s, a);
    ClosedIsUnowned(s, fd);
    assert Recorded(s, fd);
    OwnersKept(s, s', t, fd);
    assert s'.threads[t] == WantRegister(fd);
    AllRecorded(s, s', t, fd);
  }

  // A disconnect starts.
  lemma StartStep(s: State, s': State, t: nat, fd: Fd)
    requires Owners(s) && (forall x :: Recorded(s, x))
    requires fd in s.registered && NobodyLeaves(s, fd)
    requires OnlyAbout(s, s', t, fd) && Target(s.threads[t]) == None
    requires Leaving(s'.threads[t]) == Some(fd) && OwnedOk(s', s'.threads[t])
    requires s'.open == s.open && s'.selector == s.selector && (fd in s'.registered ==> fd in s.registered)
    ensures Owners(s') && (forall x :: Recorded(s', x))
  {
    ClientIsUnowned(s, fd);
    assert Recorded(s, fd);
    OwnersKept(s, s', t, fd);
    if fd !in s.selector {
      var i :| 0 <= i < |s.threads| && s.threads[i] == Adding(fd);
      assert s'.threads[i] == Adding(fd);
    }
    assert Owned(s'.threads[t]) == Some(fd);
    AllRecorded(s, s', t, fd);
  }

  lemma DisconnectStep(s: State, a: Action)
    requires Inv(s) && Enabled(s, a) && Disciplined(s, a) && (a.PopHungup? || a.CallDisconnect?)
    ensures Inv(Apply(s, a))
  {
    var fd := if a.PopHungup? then s.queue[0] else a.fd;
    LockStep(s, a);
    assert Recorded(s, fd);
    RegisteredIsOpen(s, fd);
    StartStep(s, Apply(s, a), a.t, fd);
  }

  lemma PickStep(s: State, a: Action)
    requires Inv(s) && Enabled(s, a) && Disciplined(s, a) && a.PickClient?
    ensures Inv(Apply(s, a))
  {
    LockStep(s, a);
    assert TodoOk(s, s.threads[a.t]) && Recorded(s, a.fd);
    ClientIsUnowned(s, a.fd);
    StartStep(s, Apply(s, a), a.t, a.fd);
  }

  // A thread goes on with the descriptor it owns, and may finish with it.
  lemma OwnerStep(s: State, a: Action)
    requires Inv(s) && Enabled(s, a)
    requires a.Register? || a.Deregister? || a.DeleteFromSelector? || a.Close?
    ensures Inv(Apply(s, a))
  {
    var s', t := Apply(s, a), a.t;
    var fd := s.threads[t].fd;
    LockStep(s, a);
    assert OwnedOk(s, s.threads[t]) && TodoOk(s, s.threads[t]) && Recorded(s, fd);
    OwnerIsAlone(s, t, fd);
    OwnersKept(s, s', t, fd);
    OwnerRecorded(s, a);
    AllRecorded(s, s', t, fd);
  }

  lemma OwnerRecorded(s: State, a: Action)
    requires Inv(s) && Enabled(s, a)
    requires a.Register? || a.Deregister? || a.DeleteFromSelector? || a.Close?
    ensures Recorded(Apply(s, a), s.threads[a.t].fd)
  {
    var s', t := Apply(s, a), a.t;
    var fd := s.threads[t].fd;
    assert OwnedOk(s, s.threads[t]) && Recorded(s, fd);
    assert if a.Register? then s'.threads[t] == Adding(fd) else a.Close? || Owned(s'.threads[t]) == Some(fd);
  }

  // Adding a descriptor that is open completes a client; a stale one is harmless.
  lemma AddStep(s: State, a: Action)
    requires Inv(s) && Enabled(s, a) && a.AddToSelector?
    ensures Inv(Apply(s, a))
  {
    var s', t := Apply(s, a), a.t;
    var fd := s.threads[t].fd;
    LockStep(s, a);
    assert forall i :: 0 <= i < |s.threads| ==> Owned(s'.threads[i]) == Owned(s.threads[i]);
    forall i | 0 <= i < |s'.threads| ensures OwnedOk(s', s'.threads[i]) && TodoOk(s', s'.threads[i]) {
      assert OwnedOk(s, s.threads[i]) && TodoOk(s, s.threads[i]);
    }
    if fd in s.registered { RegisteredIsOpen(s, fd); }
    forall i | Unowned(s', fd) && 0 <= i < |s.threads| ensures Owned(s.threads[i]) != Some(fd) {
      assert Owned(s'.threads[i]) != Some(fd);
    }
    assert Unowned(s', fd) ==> Unowned(s, fd);
    assert Recorded(s, fd);
    AllRecorded(s, s', t, fd);
  }

  lemma StepKeepsInv(s: State, a: Action)
    requires Inv(s) && Enabled(s, a) && Disciplined(s, a)
    ensures Inv(Apply(s, a))
  {
    match a
    case AcceptReturns(_, _) => AcceptStep(s, a);
    case PopHungup(_) => DisconnectStep(s, a);
    case CallDisconnect(_, _) => DisconnectStep(s, a);
    case PickClient(_, _) => PickStep(s, a);
    case Register(_) => OwnerStep(s, a);
    case Deregister(_) => OwnerStep(s, a);
    case DeleteFromSelector(_) => OwnerStep(s, a);
    case Close(_) => OwnerStep(s, a);
    case AddToSelector(_) => AddStep(s, a);
    case _ => NeutralStep(s, a);
  }

  ghost predicate DisciplinedRun(s: State, run: seq<Action>)
    decreases |run|
  {
    run == [] || (Enabled(s, run[0]) && Disciplined(s, run[0]) && DisciplinedRun(Apply(s, run[0]), run[1..]))
  }

  lemma {:induction false} RunKeepsInv(s: State, run: seq<Action>)
    requires Inv(s) && DisciplinedRun(s, run)
    ensures IsRun(s, run) && Inv(After(s, run))
    decreases |run|
  {
    if run != [] {
      StepKeepsInv(s, run[0]);
      RunKeepsInv(Apply(s, run[0]), run[1..]);
    }
  }

  lemma QuietAgrees(s: State, fd: Fd)
    requires Inv(s) && Quiet(s, fd)
    ensures Agrees(s, fd)
  {
    assert Recorded(s, fd);
    forall i | 0 <= i < |s.threads| ensures Owned(s.threads[i]) != Some(fd) && s.threads[i] != Adding(fd) {
      assert Target(s.threads[i]) != Some(fd);
    }
    assert Unowned(s, fd);
  }

  // For any number of threads and any interleaving of their calls in which no connection is
  // disconnected twice.
  lemma {:induction false} RecordAgreesWithKernel(n: nat, run: seq<Action>)
    requires DisciplinedRun(Init(n), run)
    ensures IsRun(Init(n), run)
    ensures var s := After(Init(n), run);
      && s.registered <= s.open && s.selector <= s.open
      && (forall fd :: Quiet(s, fd) ==> Agrees(s, fd))
      && (forall t: nat :: Enabled(s, EndAll(t)) ==> s.registered == {})
      && ((forall i :: 0 <= i < |s.threads| ==> s.threads[i].Idle?) ==> s.registered == s.open == s.selector)
  {
    RunKeepsInv(Init(n), run);
    InvPromises(After(Init(n), run));
  }

  lemma InvPromises(s: State)
    requires Inv(s)
    ensures s.registered <= s.open && s.selector <= s.open
    ensures forall fd :: Quiet(s, fd) ==> Agrees(s, fd)
    ensures forall t: nat :: Enabled(s, EndAll(t)) ==> s.registered == {}
    ensures (forall i :: 0 <= i < |s.threads| ==> s.threads[i].Idle?) ==> s.registered == s.open == s.selector
  {
    forall fd: Fd ensures fd in s.registered || fd in s.selector ==> fd in s.open {
      assert Recorded(s, fd);
      if fd in s.registered { RegisteredIsOpen(s, fd); }
    }
    forall fd: Fd | Quiet(s, fd) ensures Agrees(s, fd) { QuietAgrees(s, fd); }
    forall t: nat | Enabled(s, EndAll(t)) ensures s.registered == {} {
      assert TodoOk(s, s.threads[t]);
    }
    if forall i :: 0 <= i < |s.threads| ==> s.threads[i].Idle? {
      forall fd: Fd
        ensures (fd in s.registered <==> fd in s.open) && (fd in s.open <==> fd in s.selector)
      {
        QuietAgrees(s, fd);
      }
    }
  }

  // ---- Without the assumption ----

  ghost predicate Reaches(s: State, t: State) {
    exists run :: IsRun(s, run) && After(s, run) == t
  }

  lemma {:induction false} RunExtends(s: State, run: seq<Action>, a: Action)
    requires IsRun(s, run) && Enabled(After(s, run), a)
    ensures IsRun(s, run + [a]) && After(s, run + [a]) == Apply(After(s, run), a)
    decreases |run|
  {
    if run == [] {
      assert [] + [a] == [a] && [a][1..] == [];
    } else {
      assert (run + [a])[1..] == run[1..] + [a];
      RunExtends(Apply(s, run[0]), run[1..], a);
    }
  }

  lemma ReachesNext(s: State, t: State, a: Action, next: State)
    requires Reaches(s, t) && Enabled(t, a) && Apply(t, a) == next
    ensures Reaches(s, next)
  {
    var run :| IsRun(s, run) && After(s, run) == t;
    RunExtends(s, run, a);
  }

  // Two threads with no lock held and nothing queued.
  ghost function Two(p: Thread, q: Thread, registered: set<Fd>, open: set<Fd>, selector: set<Fd>): State {
    State([p, q], None, None, registered, [], open, selector)
  }

  // Thread 0 accepts fd while thread 1 is anywhere that leaves the locks free.
  lemma Accepts(q: Thread, fd: Fd)
    requires Reaches(Init(2), Two(Idle, q, {}, {}, {}))
    ensures Reaches(Init(2), Two(Idle, q, {fd}, {fd}, {fd}))
  {
    var i := Init(2);
    ReachesNext(i, Two(Idle, q, {}, {}, {}), AcceptReturns(0, fd), Two(WantRegister(fd), q, {}, {fd}, {}));
    var held := Two(Registering(fd), q, {}, {fd}, {}).(clientLock := Some(0));
    ReachesNext(i, Two(WantRegister(fd), q, {}, {fd}, {}), LockClients(0), held);
    ReachesNext(i, held, Register(0), Two(Adding(fd), q, {fd}, {fd}, {}));
    ReachesNext(i, Two(Adding(fd), q, {fd}, {fd}, {}), AddToSelector(0), Two(Idle, q, {fd}, {fd}, {fd}));
  }

  lemma BothCallDisconnect(fd: Fd)
    requires Reaches(Init(2), Two(Idle, Idle, {fd}, {fd}, {fd}))
    ensures Reaches(Init(2), Two(WantDeregister(fd, false), WantDeregister(fd, false), {fd}, {fd}, {fd}))
  {
    var i, w := Init(2), WantDeregister(fd, false);
    ReachesNext(i, Two(Idle, Idle, {fd}, {fd}, {fd}), CallDisconnect(0, fd), Two(w, Idle, {fd}, {fd}, {fd}));
    ReachesNext(i, Two(w, Idle, {fd}, {fd}, {fd}), CallDisconnect(1, fd), Two(w, w, {fd}, {fd}, {fd}));
  }

  lemma FirstDeregisters(fd: Fd)
    requires Reaches(Init(2), Two(WantDeregister(fd, false), WantDeregister(fd, false), {fd}, {fd}, {fd}))
    ensures Reaches(Init(2), Two(Deleting(fd, false), WantDeregister(fd, false), {}, {fd}, {fd}))
  {
    var i, w, d := Init(2), WantDeregister(fd, false), Deleting(fd, false);
    var held := Two(Deregistering(fd, false), w, {fd}, {fd}, {fd}).(clientLock := Some(0));
    ReachesNext(i, Two(w, w, {fd}, {fd}, {fd}), LockClients(0), held);
    ReachesNext(i, held, Deregister(0), Two(d, w, {}, {fd}, {fd}));
  }

  lemma SecondDeregisters(fd: Fd)
    requires Reaches(Init(2), Two(Deleting(fd, false), WantDeregister(fd, false), {}, {fd}, {fd}))
    ensures Reaches(Init(2), Two(Deleting(fd, false), Deleting(fd, false), {}, {fd}, {fd}))
  {
    var i, w, d := Init(2), WantDeregister(fd, false), Deleting(fd, false);
    var held := Two(d, Deregistering(fd, false), {}, {fd}, {fd}).(clientLock := Some(1));
    ReachesNext(i, Two(d, w, {}, {fd}, {fd}), LockClients(1), held);
    ReachesNext(i, held, Deregister(1), Two(d, d, {}, {fd}, {fd}));
  }

  lemma FirstCloses(fd: Fd)
    requires Reaches(Init(2), Two(Deleting(fd, false), Deleting(fd, false), {}, {fd}, {fd}))
    ensures Reaches(Init(2), Two(Idle, Deleting(fd, false), {}, {}, {}))
  {
    var i, d, c := Init(2), Deleting(fd, false), Closing(fd, false);
    ReachesNext(i, Two(d, d, {}, {fd}, {fd}), DeleteFromSelector(0), Two(c, d, {}, {fd}, {}));
    ReachesNext(i, Two(c, d, {}, {fd}, {}), Close(0), Two(Idle, d, {}, {}, {}));
  }

  lemma SecondCloses(fd: Fd)
    requires Reaches(Init(2), Two(Idle, Deleting(fd, false), {fd}, {fd}, {fd}))
    ensures Reaches(Init(2), Two(Idle, Idle, {fd}, {}, {}))
  {
    var i, d, c := Init(2), Deleting(fd, false), Closing(fd, false);
    ReachesNext(i, Two(Idle, d, {fd}, {fd}, {fd}), DeleteFromSelector(1), Two(Idle, c, {fd}, {fd}, {}));
    ReachesNext(i, Two(Idle, c, {fd}, {fd}, {}), Close(1), Two(Idle, Idle, {fd}, {}, {}));
  }

  lemma OneOfTwoFinishes(fd: Fd)
    ensures Reaches(Init(2), Two(Idle, Deleting(fd, false), {}, {}, {}))
  {
    assert IsRun(Init(2), []) && Init(2) == Two(Idle, Idle, {}, {}, {});
    Accepts(Idle, fd);
    BothCallDisconnect(fd);
    FirstDeregisters(fd);
    SecondDeregisters(fd);
    FirstCloses(fd);
  }

  // A client disconnected twice at once: one thread finishes, the descriptor is accepted
  // again, and the other thread closes the new connection, leaving it on record.
  lemma TwoDisconnectsBreakTheRecord(fd: Fd)
    ensures Reaches(Init(2), Two(Idle, Idle, {fd}, {}, {}))
    ensures var s := Two(Idle, Idle, {fd}, {}, {}); Quiet(s, fd) && !Agrees(s, fd) && !(s.registered <= s.open)
  {
    OneOfTwoFinishes(fd);
    Accepts(Deleting(fd, false), fd);
    SecondCloses(fd);
    assert fd !in Two(Idle, Idle, {fd}, {}, {}).open;
  }
}

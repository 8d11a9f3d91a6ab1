// The endpoint shared by threads: every access to the client set, the disconnect queue and
// the kernel is one step, and the steps of any number of threads interleave freely.

module EndpointThreads {
  import opened Sequences

  type Fd = nat

  // Where a thread is. `hungups` marks a disconnect made from endpoint_close_hungups, which
  // holds the queue lock throughout; `todo` is what boolset_foreach has yet to visit.
  datatype Thread =
    | Idle
    | WantRegister(fd: Fd)                      // accept returned fd
    | Registering(fd: Fd)                       // holds the client lock
    | Adding(fd: Fd)                            // about to add fd to the selector
    | WantEnqueue(fd: Fd)                       // an event said fd hung up
    | Enqueuing(fd: Fd)                         // holds the queue lock
    | WantHungups
    | Hungups                                   // holds the queue lock
    | WantDeregister(fd: Fd, hungups: bool)
    | Deregistering(fd: Fd, hungups: bool)      // holds the client lock
    | Deleting(fd: Fd, hungups: bool)
    | Closing(fd: Fd, hungups: bool)
    | WantAll
    | ClosingAll(todo: set<Fd>)                 // holds the client lock
    | AllDeleting(fd: Fd, todo: set<Fd>)        // holds the client lock
    | AllClosing(fd: Fd, todo: set<Fd>)         // holds the client lock
    | WantClear
    | Clearing                                  // holds the queue lock

  // `open` and `selector` are the kernel's: client sockets open, and those in the selector.
  datatype State = State(
    threads: seq<Thread>, clientLock: Option<nat>, queueLock: Option<nat>,
    registered: set<Fd>, queue: seq<Fd>, open: set<Fd>, selector: set<Fd>)
  {
    function Go(t: nat, pc: Thread): State
      requires t < |threads|
    {
      this.(threads := threads[t := pc])
    }
  }

  datatype Action =
    | AcceptReturns(t: nat, fd: Fd)
    | LockClients(t: nat)
    | LockQueue(t: nat)
    | Register(t: nat)
    | AddToSelector(t: nat)
    | HangupEvent(t: nat, fd: Fd)
    | Enqueue(t: nat)
    | CallCloseHungups(t: nat)
    | PopHungup(t: nat)
    | EndHungups(t: nat)
    | CallDisconnect(t: nat, fd: Fd)
    | Deregister(t: nat)
    | DeleteFromSelector(t: nat)
    | Close(t: nat)
    | CallDisconnectAll(t: nat)
    | PickClient(t: nat, fd: Fd)
    | EndAll(t: nat)
    | ClearQueue(t: nat)

  predicate WantsClients(pc: Thread) { pc.WantRegister? || pc.WantDeregister? || pc.WantAll? }
  predicate WantsQueue(pc: Thread) { pc.WantEnqueue? || pc.WantHungups? || pc.WantClear? }

  predicate HoldsClients(pc: Thread) {
    pc.Registering? || pc.Deregistering? || pc.ClosingAll? || pc.AllDeleting? || pc.AllClosing?
  }

  predicate HoldsQueue(pc: Thread) {
    || pc.Enqueuing? || pc.Hungups? || pc.Clearing?
    || ((pc.WantDeregister? || pc.Deregistering? || pc.Deleting? || pc.Closing?) && pc.hungups)
  }

  ghost predicate Enabled(s: State, a: Action) {
    && a.t < |s.threads|
    && var pc := s.threads[a.t];
       match a
       // accept may return any descriptor that is not open.
       case AcceptReturns(_, fd) => pc.Idle? && fd !in s.open
       case LockClients(_) => WantsClients(pc) && s.clientLock.None?
       case LockQueue(_) => WantsQueue(pc) && s.queueLock.None?
       case Register(_) => pc.Registering?
       case AddToSelector(_) => pc.Adding?
       case HangupEvent(_, fd) => pc.Idle? && fd in s.selector
       case Enqueue(_) => pc.Enqueuing?
       case CallCloseHungups(_) => pc.Idle?
       case PopHungup(_) => pc.Hungups? && s.queue != []
       case EndHungups(_) => pc.Hungups? && s.queue == []
       case CallDisconnect(_, _) => pc.Idle?
       case Deregister(_) => pc.Deregistering?
       case DeleteFromSelector(_) => pc.Deleting? || pc.AllDeleting?
       case Close(_) => pc.Closing? || pc.AllClosing?
       case CallDisconnectAll(_) => pc.Idle?
       case PickClient(_, fd) => pc.ClosingAll? && fd in pc.todo
       case EndAll(_) => pc.ClosingAll? && pc.todo == {}
       case ClearQueue(_) => pc.Clearing?
  }

  ghost function Apply(s: State, a: Action): State
    requires Enabled(s, a)
  {
    var t, pc := a.t, s.threads[a.t];
    match a
    case AcceptReturns(_, fd) => s.Go(t, WantRegister(fd)).(open := s.open + {fd})
    case LockClients(_) =>
      s.Go(t, match pc
              case WantRegister(fd) => Registering(fd)
              case WantDeregister(fd, hungups) => Deregistering(fd, hungups)
              case _ => ClosingAll(s.registered)).(clientLock := Some(t))
    case LockQueue(_) =>
      s.Go(t, match pc
              case WantEnqueue(fd) => Enqueuing(fd)
              case WantHungups => Hungups
              case _ => Clearing).(queueLock := Some(t))
    case Register(_) =>
      s.Go(t, Adding(pc.fd)).(registered := s.registered + {pc.fd}, clientLock := None)
    // Adding a descriptor that is no longer open fails and changes nothing.
    case AddToSelector(_) =>
      s.Go(t, Idle).(selector := if pc.fd in s.open then s.selector + {pc.fd} else s.selector)
    case HangupEvent(_, fd) => s.Go(t, WantEnqueue(fd))
    case Enqueue(_) => s.Go(t, Idle).(queue := [pc.fd] + s.queue, queueLock := None)
    case CallCloseHungups(_) => s.Go(t, WantHungups)
    case PopHungup(_) => s.Go(t, WantDeregister(s.queue[0], true)).(queue := s.queue[1..])
    case EndHungups(_) => s.Go(t, Idle).(queueLock := None)
    case CallDisconnect(_, fd) => s.Go(t, WantDeregister(fd, false))
    case Deregister(_) =>
      s.Go(t, Deleting(pc.fd, pc.hungups)).(registered := s.registered - {pc.fd}, clientLock := None)
    case DeleteFromSelector(_) =>
      s.Go(t, if pc.Deleting? then Closing(pc.fd, pc.hungups) else AllClosing(pc.fd, pc.todo))
      .(selector := s.selector - {pc.fd})
    // The kernel drops a closed descriptor from every epoll set.
    case Close(_) =>
      s.Go(t, if pc.AllClosing? then ClosingAll(pc.todo) else if pc.hungups then Hungups else Idle)
      .(open := s.open - {pc.fd}, selector := s.selector - {pc.fd})
    case CallDisconnectAll(_) => s.Go(t, WantAll)
    case PickClient(_, fd) =>
      s.Go(t, AllDeleting(fd, pc.todo - {fd})).(registered := s.registered - {fd})
    case EndAll(_) => s.Go(t, WantClear).(clientLock := None)
    case ClearQueue(_) => s.Go(t, Idle).(queue := [], queueLock := None)
  }

  lemma OneMoves(s: State, a: Action)
    requires Enabled(s, a)
    ensures var s' := Apply(s, a); |s'.threads| == |s.threads| && s'.threads == s.threads[a.t := s'.threads[a.t]]
  {
  }

  function Init(n: nat): State {
    State(seq(n, _ => Idle), None, None, {}, [], {}, {})
  }

  ghost predicate IsRun(s: State, run: seq<Action>)
    decreases |run|
  {
    run == [] || (Enabled(s, run[0]) && IsRun(Apply(s, run[0]), run[1..]))
  }

  ghost function After(s: State, run: seq<Action>): State
    requires IsRun(s, run)
    decreases |run|
  {
    if run == [] then s else After(Apply(s, run[0]), run[1..])
  }
}

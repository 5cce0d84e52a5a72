/** Event masks, the poller's three channel states and the dispatch order
    (include/Channel.h, src/Channel.cc, src/EPollPoller.cc). */
module ChannelSpec {

  /** What a channel asks for.  Reading stands for EPOLLIN and EPOLLPRI, which are only ever
      set and cleared together; writing for EPOLLOUT. */
  datatype Events = Events(read: bool, write: bool)

  const NO_EVENTS: Events := Events(false, false)

  predicate IsNoneEvent(e: Events) {
    e == NO_EVENTS
  }

  /** What epoll reported, flag by flag. */
  datatype Revents = Revents(in_: bool, pri: bool, out_: bool, err: bool, hup: bool)

  datatype Index = New | Added | Deleted

  datatype CtlOp = Add | Mod | Del

  /** An entry of the kernel's interest set. */
  datatype Interest<+C> = Interest(events: Events, channel: C)

  /** `updateChannel`: the next state of the channel ... */
  function UpdateIndex(index: Index, events: Events): Index {
    if index.Added? && IsNoneEvent(events) then Deleted else Added
  }

  /** ... and the call that gets it there. */
  function UpdateOp(index: Index, events: Events): CtlOp {
    if !index.Added? then Add else if IsNoneEvent(events) then Del else Mod
  }

  /** epoll_ctl succeeds on an absent descriptor for ADD, on a present one for MOD and DEL. */
  predicate Legal<C>(kernel: map<nat, Interest<C>>, op: CtlOp, fd: nat) {
    op.Add? <==> fd !in kernel
  }

  function Ctl<C>(kernel: map<nat, Interest<C>>, op: CtlOp, fd: nat, i: Interest<C>): map<nat, Interest<C>> {
    if op.Del? then kernel - {fd} else kernel[fd := i]
  }

  /** The calls `update` may make, case by case: which are refused, and what the others leave. */
  lemma CtlContract<C>(kernel: map<nat, Interest<C>>, fd: nat, i: Interest<C>)
    ensures Legal(kernel, Add, fd) <==> fd !in kernel
    ensures Legal(kernel, Mod, fd) <==> fd in kernel
    ensures Legal(kernel, Del, fd) <==> fd in kernel
    ensures forall op | op == Add || op == Mod :: fd in Ctl(kernel, op, fd, i) && Ctl(kernel, op, fd, i)[fd] == i
    ensures fd !in Ctl(kernel, Del, fd, i)
    ensures forall op, g | g != fd :: (g in Ctl(kernel, op, fd, i) <==> g in kernel)
                                      && (g in kernel ==> Ctl(kernel, op, fd, i)[g] == kernel[g])
  {
  }

  /** Which call a mask change makes from which index, and where it leads. */
  lemma UpdateCases(index: Index, events: Events)
    ensures index == New || index == Deleted ==> UpdateOp(index, events) == Add && UpdateIndex(index, events) == Added
    ensures index == Added && events == Events(false, false) ==>
              UpdateOp(index, events) == Del && UpdateIndex(index, events) == Deleted
    ensures index == Added && events != Events(false, false) ==>
              UpdateOp(index, events) == Mod && UpdateIndex(index, events) == Added
  {
  }

  datatype Callback = CloseCb | ErrorCb | ReadCb | WriteCb

  predicate HasInput(r: Revents) {
    r.in_ || r.pri
  }

  /** `handleEventWithGuard`. */
  function Dispatch(r: Revents): seq<Callback> {
    (if r.hup && !HasInput(r) then [CloseCb] else [])
    + (if r.err then [ErrorCb] else [])
    + (if HasInput(r) then [ReadCb] else [])
    + (if r.out_ then [WriteCb] else [])
  }

  function Priority(c: Callback): nat {
    match c case CloseCb => 0 case ErrorCb => 1 case ReadCb => 2 case WriteCb => 3
  }

  /** A hang-up closes only once there is nothing to read; each callback runs at most once, in
      the order close, error, read, write; close and read never run together. */
  lemma DispatchOrder(r: Revents)
    ensures forall i, j :: 0 <= i < j < |Dispatch(r)| ==> Priority(Dispatch(r)[i]) < Priority(Dispatch(r)[j])
    ensures CloseCb in Dispatch(r) <==> r.hup && !r.in_ && !r.pri
    ensures ErrorCb in Dispatch(r) <==> r.err
    ensures ReadCb in Dispatch(r) <==> r.in_ || r.pri
    ensures WriteCb in Dispatch(r) <==> r.out_
    ensures !(CloseCb in Dispatch(r) && ReadCb in Dispatch(r))
  {
  }
}

/** Connection set-up and teardown across threads (src/TcpServer.cc, src/TcpConnection.cc,
    src/Channel.cc, src/EPollPoller.cc, src/EventLoop.cc).

    One accept loop and any number of io loops, each a thread of its own, exchange functors.  A
    connection object lives as long as the server's map, a queued functor or a running event
    handler holds it; then its socket is closed and its descriptor may be used again.  The
    interleaving of the loops, the descriptors handed out, the events reported and the outcome
    of every read are arbitrary, so `handleClose` may run any number of times. */
module TeardownSpec {
  import opened Basics
  import opened ChannelSpec
  import C = ConnectionSpec
  import LogStreams

  type ConnId = nat
  type LoopId = nat
  type Fd = nat

  /** The loop that accepts and owns the server's map.  It may also serve connections. */
  const BASE: LoopId := 0

  /** All but `Shutdown`, which binds a raw `this`, hold the connection they are about. */
  datatype Functor =
    | Establish(conn: ConnId)   // connectEstablished
    | RemoveConn(conn: ConnId)  // removeConnectionInLoop
    | Destroy(conn: ConnId)     // connectDestroyed
    | Shutdown(conn: ConnId)    // shutdownInLoop
    | Notify(conn: ConnId)      // a write-complete or high-water callback

  datatype Phase = Polling | Handling | Functors

  datatype Event = Event(conn: ConnId, revents: Revents)

  /** `queue` is the rest of the swapped-out batch (its first `batch` functors) followed by
      `pendingFunctors_`, which `EventLoopSpec` shows to be run in this order. */
  datatype Loop = Loop(
    phase: Phase,
    active: seq<Event>,
    current: Option<ConnId>,
    todo: seq<Callback>,
    queue: seq<Functor>,
    batch: nat,
    channels: map<Fd, ConnId>,
    kernel: map<Fd, Interest<ConnId>>)

  /** `open`: the object exists and its socket is open. */
  datatype Conn = Conn(fd: Fd, loop: LoopId, state: C.StateE, events: Events, index: Index, open: bool)

  datatype State = State(
    loops: map<LoopId, Loop>,
    conns: map<ConnId, Conn>,
    connections: map<seq<byte>, ConnId>,
    nextConnId: nat,
    ctlErrors: nat)

  /** The varying part of a connection's name: its number in decimal. */
  function Name(c: ConnId): seq<byte> {
    LogStreams.RepairedText(c)
  }

  predicate Known(s: State, c: ConnId) {
    c in s.conns && s.conns[c].loop in s.loops
  }

  // ---------------------------------------------------------------- the operations

  function Push(s: State, l: LoopId, f: Functor): State
    requires l in s.loops
  {
    s.(loops := s.loops[l := s.loops[l].(queue := s.loops[l].queue + [f])])
  }

  function SetState(s: State, c: ConnId, state: C.StateE): State
    requires Known(s, c)
  {
    s.(conns := s.conns[c := s.conns[c].(state := state)])
  }

  /** One epoll_ctl call on the loop of `c`; an illegal one fails and is counted. */
  function EpollCtl(s: State, c: ConnId, op: CtlOp): State
    requires Known(s, c)
  {
    var conn := s.conns[c];
    var l := s.loops[conn.loop];
    if Legal(l.kernel, op, conn.fd) then
      s.(loops := s.loops[conn.loop := l.(kernel := Ctl(l.kernel, op, conn.fd, Interest(conn.events, c)))])
    else s.(ctlErrors := s.ctlErrors + 1)
  }

  /** A change of the channel's mask followed by `updateChannel`. */
  function SetEvents(s: State, c: ConnId, mask: Events): State
    requires Known(s, c)
  {
    var conn := s.conns[c];
    var l := s.loops[conn.loop];
    var s1 := s.(
      conns := s.conns[c := conn.(events := mask, index := UpdateIndex(conn.index, mask))],
      loops := if conn.index.New? then s.loops[conn.loop := l.(channels := l.channels[conn.fd := c])] else s.loops);
    EpollCtl(s1, c, UpdateOp(conn.index, mask))
  }

  /** `removeChannel`: it erases whatever is stored under the descriptor. */
  function RemoveChannel(s: State, c: ConnId): State
    requires Known(s, c)
  {
    var conn := s.conns[c];
    var l := s.loops[conn.loop];
    var s1 := s.(loops := s.loops[conn.loop := l.(channels := l.channels - {conn.fd})]);
    var s2 := if conn.index.Added? then EpollCtl(s1, c, Del) else s1;
    s2.(conns := s2.conns[c := conn.(index := New)])
  }

  function ConnectEstablished(s: State, c: ConnId): State
    requires Known(s, c)
  {
    SetEvents(SetState(s, c, C.KConnected), c, s.conns[c].events.(read := true))
  }

  function ConnectDestroyed(s: State, c: ConnId): State
    requires Known(s, c)
  {
    if s.conns[c].state.KConnected? then RemoveChannel(SetEvents(SetState(s, c, C.KDisconnected), c, NO_EVENTS), c)
    else RemoveChannel(s, c)
  }

  /** `removeConnectionInLoop`, on the accept loop. */
  function RemoveConnectionInLoop(s: State, c: ConnId): State
    requires Known(s, c)
  {
    Push(s.(connections := s.connections - {Name(c)}), s.conns[c].loop, Destroy(c))
  }

  /** `removeConnection`, called on loop `l`: inline there if that is the accept loop. */
  function RemoveConnection(s: State, l: LoopId, c: ConnId): State
    requires Known(s, c) && BASE in s.loops
  {
    if l == BASE then RemoveConnectionInLoop(s, c) else Push(s, BASE, RemoveConn(c))
  }

  function HandleClose(s: State, l: LoopId, c: ConnId): State
    requires Known(s, c) && BASE in s.loops
  {
    RemoveConnection(SetEvents(SetState(s, c, C.KDisconnected), c, NO_EVENTS), l, c)
  }

  /** `newConnection` for an accepted descriptor, given to loop `l`. */
  function NewConnection(s: State, fd: Fd, l: LoopId): State
    requires l in s.loops
  {
    var c := s.nextConnId;
    var s1 := s.(
      nextConnId := c + 1,
      conns := s.conns[c := Conn(fd, l, C.KConnecting, NO_EVENTS, New, true)],
      connections := s.connections[Name(c) := c]);
    if l == BASE then ConnectEstablished(s1, c) else Push(s1, l, Establish(c))
  }

  function Execute(s: State, f: Functor): State
    requires Known(s, f.conn)
  {
    match f
    case Establish(c) => ConnectEstablished(s, c)
    case RemoveConn(c) => RemoveConnectionInLoop(s, c)
    case Destroy(c) => ConnectDestroyed(s, c)
    case Shutdown(_) => s
    case Notify(_) => s
  }

  // ---------------------------------------------------------------- who holds a connection

  predicate InMap(s: State, c: ConnId) {
    Name(c) in s.connections && s.connections[Name(c)] == c
  }

  predicate Queued(s: State, l: LoopId, f: Functor) {
    l in s.loops && f in s.loops[l].queue
  }

  /** The object exists: the map, a functor that holds it or a running handler keeps it. */
  ghost predicate Held(s: State, c: ConnId) {
    || InMap(s, c)
    || (exists l :: Queued(s, l, Establish(c)) || Queued(s, l, RemoveConn(c)) || Queued(s, l, Destroy(c)) || Queued(s, l, Notify(c)))
    || (exists l :: l in s.loops && s.loops[l].current == Some(c))
  }

  /** Its removal is still to come: it is in the map, or on its way out of it. */
  predicate Anchored(s: State, c: ConnId)
    requires Known(s, c)
  {
    InMap(s, c) || Queued(s, BASE, RemoveConn(c)) || Queued(s, s.conns[c].loop, Destroy(c))
  }

  // ---------------------------------------------------------------- steps

  datatype Step =
    | Accept(fd: Fd, l: LoopId)
    | Poll(l: LoopId, reported: seq<(Fd, Revents)>)
    | BeginEvent(l: LoopId)
    | RunCallback(l: LoopId, eof: bool)
    | EndEvent(l: LoopId)
    | TakeFunctors(l: LoopId)
    | RunFunctor(l: LoopId)
    | EndFunctors(l: LoopId)
    | UserShutdown(c: ConnId)
    | UserWriting(c: ConnId, on: bool)
    | UserNotify(c: ConnId)
    | CloseSocket(c: ConnId)

  /** User code runs on the connection's loop, on a connection that is up. */
  predicate InUse(s: State, c: ConnId) {
    && Known(s, c) && !s.loops[s.conns[c].loop].phase.Polling?
    && (s.conns[c].state.KConnected? || s.conns[c].state.KDisconnecting?)
  }

  ghost predicate Enabled(s: State, step: Step) {
    match step
    case Accept(fd, l) =>
      && BASE in s.loops && l in s.loops && !s.loops[BASE].phase.Polling?
      && forall c | c in s.conns :: s.conns[c].open ==> s.conns[c].fd != fd
    case Poll(l, reported) =>
      && l in s.loops && s.loops[l].phase.Polling?
      && (forall i :: 0 <= i < |reported| ==> reported[i].0 in s.loops[l].kernel)
    case BeginEvent(l) =>
      && l in s.loops && s.loops[l].phase.Handling? && s.loops[l].current.None? && s.loops[l].active != []
      && Known(s, s.loops[l].active[0].conn)
    case RunCallback(l, _) =>
      && l in s.loops && BASE in s.loops && s.loops[l].current.Some? && s.loops[l].todo != []
      && Known(s, s.loops[l].current.value)
    case EndEvent(l) => l in s.loops && s.loops[l].current.Some? && s.loops[l].todo == []
    case TakeFunctors(l) => l in s.loops && s.loops[l].phase.Handling? && s.loops[l].current.None? && s.loops[l].active == []
    case RunFunctor(l) =>
      && l in s.loops && s.loops[l].phase.Functors? && s.loops[l].queue != [] && s.loops[l].batch > 0
      && Known(s, s.loops[l].queue[0].conn)
    case EndFunctors(l) => l in s.loops && s.loops[l].phase.Functors? && s.loops[l].batch == 0
    case UserShutdown(c) => InUse(s, c) && s.conns[c].state.KConnected?
    case UserWriting(c, _) => InUse(s, c)
    case UserNotify(c) => InUse(s, c)
    case CloseSocket(c) => Known(s, c) && s.conns[c].open && !Held(s, c)
  }

  function PutLoop(s: State, l: LoopId, loop: Loop): State {
    s.(loops := s.loops[l := loop])
  }

  /** The functor about to run leaves the queue and no longer counts as a holder, which is
      sooner than in the code, where the whole batch is released together. */
  function Popped(s: State, l: LoopId): State
    requires l in s.loops && s.loops[l].queue != [] && s.loops[l].batch > 0
  {
    PutLoop(s, l, s.loops[l].(queue := s.loops[l].queue[1..], batch := s.loops[l].batch - 1))
  }

  /** The object is gone and its socket closed: the kernel forgets a closed descriptor, the
      poller's own map would not. */
  function Released(s: State, c: ConnId): State
    requires Known(s, c)
  {
    var l := s.conns[c].loop;
    PutLoop(s, l, s.loops[l].(kernel := s.loops[l].kernel - {s.conns[c].fd})).(
      conns := s.conns[c := s.conns[c].(open := false)])
  }

  /** The callbacks that end in `handleClose`: close and error always, read at end of stream. */
  predicate Closes(cb: Callback, eof: bool) {
    cb.CloseCb? || cb.ErrorCb? || (cb.ReadCb? && eof)
  }

  ghost function Apply(s: State, step: Step): State
    requires Enabled(s, step)
  {
    match step
    case Accept(fd, l) => NewConnection(s, fd, l)
    case Poll(l, reported) =>
      var loop := s.loops[l];
      PutLoop(s, l, loop.(phase := Handling,
        active := seq(|reported|, i requires 0 <= i < |reported| => Event(loop.kernel[reported[i].0].channel, reported[i].1))))
    case BeginEvent(l) =>
      var loop := s.loops[l];
      var e := loop.active[0];
      PutLoop(s, l, if s.conns[e.conn].open then loop.(active := loop.active[1..], current := Some(e.conn), todo := Dispatch(e.revents))
                    else loop.(active := loop.active[1..]))
    case RunCallback(l, eof) =>
      var loop := s.loops[l];
      var s1 := PutLoop(s, l, loop.(todo := loop.todo[1..]));
      if Closes(loop.todo[0], eof) then HandleClose(s1, l, loop.current.value) else s1
    case EndEvent(l) => PutLoop(s, l, s.loops[l].(current := None))
    case TakeFunctors(l) => PutLoop(s, l, s.loops[l].(phase := Functors, batch := |s.loops[l].queue|))
    case RunFunctor(l) => Execute(Popped(s, l), s.loops[l].queue[0])
    case EndFunctors(l) => PutLoop(s, l, s.loops[l].(phase := Polling))
    case UserShutdown(c) => Push(SetState(s, c, C.KDisconnecting), s.conns[c].loop, Shutdown(c))
    case UserWriting(c, on) => SetEvents(s, c, s.conns[c].events.(write := on))
    case UserNotify(c) => Push(s, s.conns[c].loop, Notify(c))
    case CloseSocket(c) => Released(s, c)
  }

  function IdleLoop(): Loop {
    Loop(Polling, [], None, [], [], 0, map[], map[])
  }

  ghost predicate Init(s: State) {
    && BASE in s.loops && (forall l | l in s.loops :: s.loops[l] == IdleLoop())
    && s.conns == map[] && s.connections == map[] && s.ctlErrors == 0 && s.nextConnId == 1
  }
}

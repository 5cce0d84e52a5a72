/** The teardown protocol is safe: an inductive invariant of `TeardownSpec` and its theorems. */
module TeardownProof {
  import opened Basics
  import opened ChannelSpec
  import C = ConnectionSpec
  import LogStreams
  import opened TeardownSpec

  /** Names identify connections, so erasing one entry of the map never removes another. */
  lemma NamesDistinct()
    ensures forall a: ConnId, b: ConnId :: Name(a) == Name(b) ==> a == b
  {
    forall a: ConnId, b: ConnId | Name(a) == Name(b)
      ensures a == b
    {
      LogStreams.TextCanonicalIff(a);
      LogStreams.TextCanonicalIff(b);
    }
  }

  // ---------------------------------------------------------------- the invariant

  ghost predicate WellFormed(s: State) {
    && BASE in s.loops
    && (forall c | c in s.conns :: c < s.nextConnId && s.conns[c].loop in s.loops)
    && (forall l | l in s.loops :: s.loops[l].batch <= |s.loops[l].queue|)
  }

  /** Open sockets have distinct descriptors, and only their channels are registered. */
  ghost predicate FdsOk(s: State) {
    && (forall c, d | c in s.conns && d in s.conns && c != d && s.conns[c].open && s.conns[d].open ::
          s.conns[c].fd != s.conns[d].fd)
    && (forall c | c in s.conns && s.conns[c].index != New :: s.conns[c].open)
  }

  /** Each poller's map holds exactly its registered channels. */
  ghost predicate Registered(s: State)
    requires WellFormed(s)
  {
    && (forall l, fd | l in s.loops && fd in s.loops[l].channels ::
          var c := s.loops[l].channels[fd];
          c in s.conns && s.conns[c].fd == fd && s.conns[c].loop == l && s.conns[c].index != New)
    && (forall c | c in s.conns && s.conns[c].index != New ::
          s.conns[c].fd in s.loops[s.conns[c].loop].channels && s.loops[s.conns[c].loop].channels[s.conns[c].fd] == c)
  }

  /** The kernel watches exactly the Added channels, with the masks they ask for, and no
      epoll_ctl call has ever failed. */
  ghost predicate Watched(s: State)
    requires WellFormed(s)
  {
    && (forall l, fd | l in s.loops && fd in s.loops[l].kernel ::
          var c := s.loops[l].kernel[fd].channel;
          c in s.conns && s.conns[c].fd == fd && s.conns[c].loop == l && s.conns[c].index == Added)
    && (forall c | c in s.conns && s.conns[c].index == Added ::
          && s.conns[c].fd in s.loops[s.conns[c].loop].kernel
          && s.loops[s.conns[c].loop].kernel[s.conns[c].fd] == Interest(s.conns[c].events, c))
    && s.ctlErrors == 0
  }

  ghost predicate PollersOk(s: State) {
    WellFormed(s) && FdsOk(s) && Registered(s) && Watched(s)
  }

  /** A functor is on the right loop, about a connection in the right state, and open unless
      the functor does not hold it. */
  predicate FunctorOk(s: State, l: LoopId, f: Functor) {
    && f.conn in s.conns
    && var c := s.conns[f.conn];
       match f
       case Establish(_) => c.loop == l && c.open && c.state == C.KConnecting
       case RemoveConn(_) => l == BASE && c.open && c.state == C.KDisconnected
       case Destroy(_) => c.loop == l && c.open && c.state == C.KDisconnected
       case Shutdown(_) => c.loop == l && (c.state == C.KDisconnecting || c.state == C.KDisconnected)
       case Notify(_) => c.loop == l && c.open
  }

  /** Functors that must not follow one another: a second establishment, or a shutdown with a
      raw pointer behind the destruction of the same connection. */
  predicate Conflict(f: Functor, g: Functor) {
    f.conn == g.conn && ((f.Establish? && g.Establish?) || (f.Destroy? && g.Shutdown?))
  }

  ghost predicate QueuesOk(s: State) {
    && (forall l, i | l in s.loops && 0 <= i < |s.loops[l].queue| :: FunctorOk(s, l, s.loops[l].queue[i]))
    && (forall l, i, j | l in s.loops && 0 <= i < j < |s.loops[l].queue| ::
          !Conflict(s.loops[l].queue[i], s.loops[l].queue[j]))
  }

  ghost predicate MapOk(s: State) {
    forall n | n in s.connections ::
      s.connections[n] in s.conns && n == Name(s.connections[n]) && s.conns[s.connections[n]].open
  }

  /** A registered channel, and the target of a queued raw shutdown, belong to a connection
      whose removal is still to come. */
  predicate AnchorOk(s: State, c: ConnId)
    requires Known(s, c)
  {
    s.conns[c].index != New || Queued(s, s.conns[c].loop, Shutdown(c)) ==> Anchored(s, c)
  }

  /** What each connection state says about the map, the poller and the queues. */
  predicate StateOk(s: State, c: ConnId)
    requires c in s.conns
  {
    match s.conns[c].state
    case KConnecting => s.conns[c].index == New && InMap(s, c)
    case KConnected => s.conns[c].index == Added && s.conns[c].events.read && InMap(s, c)
    case KDisconnecting => s.conns[c].index == Added && s.conns[c].events.read && InMap(s, c)
    case KDisconnected => s.conns[c].events == NO_EVENTS && (InMap(s, c) ==> Queued(s, BASE, RemoveConn(c)))
  }

  /** ... for every connection save possibly one that a step is working on. */
  ghost predicate ConnsOk(s: State, skip: Option<ConnId>)
    requires WellFormed(s)
  {
    MapOk(s) && forall c | c in s.conns && Some(c) != skip :: AnchorOk(s, c) && StateOk(s, c)
  }

  ghost predicate OnLoop(s: State, l: LoopId, c: ConnId) {
    c in s.conns && s.conns[c].loop == l && s.conns[c].index != New
  }

  /** Every channel in the hands of a dispatch loop is registered with that loop. */
  ghost predicate DispatchOk(s: State) {
    && (forall l, i | l in s.loops && 0 <= i < |s.loops[l].active| :: OnLoop(s, l, s.loops[l].active[i].conn))
    && (forall l | l in s.loops && s.loops[l].current.Some? :: OnLoop(s, l, s.loops[l].current.value))
    && (forall l | l in s.loops && !s.loops[l].phase.Handling? :: s.loops[l].active == [] && s.loops[l].current.None?)
  }

  ghost predicate Inv(s: State) {
    PollersOk(s) && QueuesOk(s) && ConnsOk(s, None) && DispatchOk(s)
  }

  // ---------------------------------------------------------------- what a change leaves alone

  ghost predicate SamePollers(s: State, t: State) {
    && s.loops.Keys == t.loops.Keys && s.conns.Keys == t.conns.Keys && s.ctlErrors == t.ctlErrors
    && (forall l | l in s.loops :: s.loops[l].channels == t.loops[l].channels && s.loops[l].kernel == t.loops[l].kernel)
    && (forall c | c in s.conns :: s.conns[c] == t.conns[c].(state := s.conns[c].state))
  }

  lemma PollersFrame(s: State, t: State)
    requires PollersOk(s) && WellFormed(t) && SamePollers(s, t)
    ensures PollersOk(t)
  {
    assert FdsOk(t);
    assert Registered(t);
    assert Watched(t);
  }

  ghost predicate SameQueues(s: State, t: State) {
    && s.loops.Keys == t.loops.Keys
    && (forall l | l in s.loops :: s.loops[l].queue == t.loops[l].queue)
  }

  /** Queued functors do not care about masks, indices or new connections. */
  lemma QueuesFrame(s: State, t: State)
    requires QueuesOk(s) && SameQueues(s, t)
    requires forall c | c in s.conns :: c in t.conns && t.conns[c].loop == s.conns[c].loop
                                       && t.conns[c].open == s.conns[c].open && t.conns[c].state == s.conns[c].state
    ensures QueuesOk(t)
  {
    forall l, i | l in t.loops && 0 <= i < |t.loops[l].queue|
      ensures FunctorOk(t, l, t.loops[l].queue[i])
    {
      assert FunctorOk(s, l, s.loops[l].queue[i]);
    }
  }

  lemma DispatchFrame(s: State, t: State)
    requires DispatchOk(s) && s.loops.Keys == t.loops.Keys
    requires forall l | l in s.loops :: s.loops[l].active == t.loops[l].active && s.loops[l].current == t.loops[l].current
                                        && s.loops[l].phase == t.loops[l].phase
    requires forall c | c in s.conns :: c in t.conns && t.conns[c].loop == s.conns[c].loop
                                        && (s.conns[c].index != New ==> t.conns[c].index != New)
    ensures DispatchOk(t)
  {
  }

  lemma ConnsFrame(s: State, t: State, skip: Option<ConnId>)
    requires WellFormed(s) && WellFormed(t) && ConnsOk(s, skip) && SameQueues(s, t)
    requires s.conns == t.conns && s.connections == t.connections
    ensures ConnsOk(t, skip)
  {
    forall c | c in t.conns && Some(c) != skip
      ensures AnchorOk(t, c) && StateOk(t, c)
    {
      assert AnchorOk(s, c) && StateOk(s, c);
    }
  }

  lemma LoopDispatch(s: State, l: LoopId, loop: Loop)
    requires DispatchOk(s) && l in s.loops
    requires forall i | 0 <= i < |loop.active| :: OnLoop(s, l, loop.active[i].conn)
    requires loop.current.Some? ==> OnLoop(s, l, loop.current.value)
    requires !loop.phase.Handling? ==> loop.active == [] && loop.current.None?
    ensures DispatchOk(PutLoop(s, l, loop))
  {
  }

  lemma LoopPollers(s: State, l: LoopId, loop: Loop)
    requires PollersOk(s) && l in s.loops && loop.batch <= |loop.queue|
    requires loop.channels == s.loops[l].channels && loop.kernel == s.loops[l].kernel
    ensures PollersOk(PutLoop(s, l, loop))
  {
    PollersFrame(s, PutLoop(s, l, loop));
  }

  /** A loop moves through its own phases: queues, pollers and connections stay. */
  lemma LoopMoves(s: State, l: LoopId, loop: Loop)
    requires Inv(s) && l in s.loops
    requires loop.queue == s.loops[l].queue && loop.channels == s.loops[l].channels && loop.kernel == s.loops[l].kernel
    requires loop.batch <= |loop.queue|
    requires forall i | 0 <= i < |loop.active| :: OnLoop(s, l, loop.active[i].conn)
    requires loop.current.Some? ==> OnLoop(s, l, loop.current.value)
    requires !loop.phase.Handling? ==> loop.active == [] && loop.current.None?
    ensures Inv(PutLoop(s, l, loop))
  {
    var t := PutLoop(s, l, loop);
    LoopDispatch(s, l, loop);
    LoopPollers(s, l, loop);
    QueuesFrame(s, t);
    ConnsFrame(s, t, None);
  }

  lemma PollKeeps(s: State, l: LoopId, reported: seq<(Fd, Revents)>)
    requires Inv(s) && Enabled(s, Poll(l, reported))
    ensures Inv(Apply(s, Poll(l, reported)))
  {
    LoopMoves(s, l, Apply(s, Poll(l, reported)).loops[l]);
  }

  lemma BeginEventKeeps(s: State, l: LoopId)
    requires Inv(s) && Enabled(s, BeginEvent(l))
    ensures Inv(Apply(s, BeginEvent(l)))
  {
    LoopMoves(s, l, Apply(s, BeginEvent(l)).loops[l]);
  }

  lemma EndEventKeeps(s: State, l: LoopId)
    requires Inv(s) && Enabled(s, EndEvent(l))
    ensures Inv(Apply(s, EndEvent(l)))
  {
    LoopMoves(s, l, Apply(s, EndEvent(l)).loops[l]);
  }

  lemma TakeFunctorsKeeps(s: State, l: LoopId)
    requires Inv(s) && Enabled(s, TakeFunctors(l))
    ensures Inv(Apply(s, TakeFunctors(l)))
  {
    LoopMoves(s, l, Apply(s, TakeFunctors(l)).loops[l]);
  }

  lemma EndFunctorsKeeps(s: State, l: LoopId)
    requires Inv(s) && Enabled(s, EndFunctors(l))
    ensures Inv(Apply(s, EndFunctors(l)))
  {
    LoopMoves(s, l, Apply(s, EndFunctors(l)).loops[l]);
  }

  // ---------------------------------------------------------------- pushing and popping functors

  lemma PushQueues(s: State, l: LoopId, f: Functor)
    requires QueuesOk(s) && l in s.loops && FunctorOk(s, l, f)
    requires forall i | 0 <= i < |s.loops[l].queue| :: !Conflict(s.loops[l].queue[i], f)
    ensures QueuesOk(Push(s, l, f))
  {
    var t := Push(s, l, f);
    forall k, i | k in t.loops && 0 <= i < |t.loops[k].queue|
      ensures FunctorOk(t, k, t.loops[k].queue[i])
    {
      if i < |s.loops[k].queue| {
        assert FunctorOk(s, k, s.loops[k].queue[i]);
      }
    }
  }

  lemma PushPollers(s: State, l: LoopId, f: Functor)
    requires PollersOk(s) && l in s.loops
    ensures PollersOk(Push(s, l, f))
  {
    PollersFrame(s, Push(s, l, f));
  }

  /** A push never takes an anchor away; it may itself be the one that `skip` waits for. */
  lemma PushConns(s: State, l: LoopId, f: Functor, skip: Option<ConnId>)
    requires WellFormed(s) && ConnsOk(s, skip) && l in s.loops
    requires f.Shutdown? ==> Known(s, f.conn) && Anchored(s, f.conn)
    ensures ConnsOk(Push(s, l, f), skip)
  {
    var t := Push(s, l, f);
    forall c | c in t.conns && Some(c) != skip
      ensures AnchorOk(t, c) && StateOk(t, c)
    {
      assert AnchorOk(s, c) && StateOk(s, c);
      assert Anchored(s, c) ==> Anchored(t, c);
    }
  }

  lemma PushKeeps(s: State, l: LoopId, f: Functor)
    requires Inv(s) && l in s.loops && FunctorOk(s, l, f)
    requires forall i | 0 <= i < |s.loops[l].queue| :: !Conflict(s.loops[l].queue[i], f)
    requires f.Shutdown? ==> Known(s, f.conn) && Anchored(s, f.conn)
    ensures Inv(Push(s, l, f))
  {
    PushPollers(s, l, f);
    PushQueues(s, l, f);
    PushConns(s, l, f, None);
    PushDispatch(s, l, f);
  }

  lemma PushDispatch(s: State, l: LoopId, f: Functor)
    requires DispatchOk(s) && l in s.loops
    ensures DispatchOk(Push(s, l, f))
  {
    DispatchFrame(s, Push(s, l, f));
  }

  lemma UserNotifyKeeps(s: State, c: ConnId)
    requires Inv(s) && Enabled(s, UserNotify(c))
    ensures Inv(Apply(s, UserNotify(c)))
  {
    assert StateOk(s, c);
    PushKeeps(s, s.conns[c].loop, Notify(c));
  }

  lemma PoppedKeeps(s: State, l: LoopId)
    requires Inv(s) && l in s.loops && s.loops[l].queue != [] && s.loops[l].batch > 0
    ensures var t := Popped(s, l); PollersOk(t) && QueuesOk(t) && DispatchOk(t)
  {
    LoopPollers(s, l, Popped(s, l).loops[l]);
    LoopDispatch(s, l, Popped(s, l).loops[l]);
    PoppedQueues(s, l);
  }

  lemma PoppedQueues(s: State, l: LoopId)
    requires QueuesOk(s) && l in s.loops && s.loops[l].queue != [] && s.loops[l].batch > 0
    ensures QueuesOk(Popped(s, l))
  {
    var t := Popped(s, l);
    forall k, i | k in t.loops && 0 <= i < |t.loops[k].queue|
      ensures FunctorOk(t, k, t.loops[k].queue[i])
    {
      var i' := if k == l then i + 1 else i;
      assert FunctorOk(s, k, s.loops[k].queue[i']);
    }
    forall k, i, j | k in t.loops && 0 <= i < j < |t.loops[k].queue|
      ensures !Conflict(t.loops[k].queue[i], t.loops[k].queue[j])
    {
      var d := if k == l then 1 else 0;
      assert !Conflict(s.loops[k].queue[i + d], s.loops[k].queue[j + d]);
    }
  }

  /** Only the connection the functor was about can have lost an anchor. */
  lemma PoppedConns(s: State, l: LoopId)
    requires Inv(s) && l in s.loops && s.loops[l].queue != [] && s.loops[l].batch > 0
    ensures ConnsOk(Popped(s, l), Some(s.loops[l].queue[0].conn))
    ensures s.loops[l].queue[0].Shutdown? || s.loops[l].queue[0].Notify? || s.loops[l].queue[0].Establish? ==>
            ConnsOk(Popped(s, l), None)
  {
    var t, f := Popped(s, l), s.loops[l].queue[0];
    forall c | c in t.conns
      ensures c != f.conn || !(f.RemoveConn? || f.Destroy?) ==> AnchorOk(t, c) && StateOk(t, c)
    {
      if c != f.conn || !(f.RemoveConn? || f.Destroy?) {
        PoppedConn(s, l, c);
      }
    }
  }

  lemma PoppedConn(s: State, l: LoopId, c: ConnId)
    requires Inv(s) && l in s.loops && s.loops[l].queue != [] && s.loops[l].batch > 0 && c in s.conns
    requires var f := s.loops[l].queue[0]; c != f.conn || !(f.RemoveConn? || f.Destroy?)
    ensures AnchorOk(Popped(s, l), c) && StateOk(Popped(s, l), c)
  {
    PoppedQueued(s, l);
    OthersAnchored(s, Popped(s, l), s.loops[l].queue[0], c);
  }

  lemma PoppedQueued(s: State, l: LoopId)
    requires l in s.loops && s.loops[l].queue != [] && s.loops[l].batch > 0
    ensures forall k, g :: Queued(s, k, g) && g != s.loops[l].queue[0] ==> Queued(Popped(s, l), k, g)
    ensures forall k, g :: Queued(Popped(s, l), k, g) ==> Queued(s, k, g)
  {
    assert s.loops[l].queue == [s.loops[l].queue[0]] + Popped(s, l).loops[l].queue;
  }

  /** A functor that goes matters only to the connection it is about. */
  lemma OthersAnchored(s: State, t: State, f: Functor, c: ConnId)
    requires WellFormed(s) && c in s.conns && AnchorOk(s, c) && StateOk(s, c)
    requires s.conns == t.conns && s.connections == t.connections && s.loops.Keys == t.loops.Keys
    requires forall k, g :: Queued(s, k, g) && g != f ==> Queued(t, k, g)
    requires forall k, g :: Queued(t, k, g) ==> Queued(s, k, g)
    requires c != f.conn || !(f.RemoveConn? || f.Destroy?)
    ensures AnchorOk(t, c) && StateOk(t, c)
  {
  }

  lemma PoppedDestroy(s: State, l: LoopId, c: ConnId)
    requires Inv(s) && l in s.loops && s.loops[l].queue != [] && s.loops[l].batch > 0
    requires s.loops[l].queue[0] == Destroy(c) && c in s.conns
    ensures StateOk(Popped(s, l), c)
  {
    assert StateOk(s, c);
    PoppedQueued(s, l);
  }

  // ---------------------------------------------------------------- masks, indices, states

  lemma SetStateFrames(s: State, c: ConnId, state: C.StateE)
    requires PollersOk(s) && DispatchOk(s) && Known(s, c)
    ensures PollersOk(SetState(s, c, state)) && DispatchOk(SetState(s, c, state))
  {
    PollersFrame(s, SetState(s, c, state));
    DispatchFrame(s, SetState(s, c, state));
  }

  /** The queued functors about a connection allow it to take `state`. */
  lemma SetStateQueues(s: State, c: ConnId, state: C.StateE)
    requires QueuesOk(s) && Known(s, c)
    requires forall l, i | l in s.loops && 0 <= i < |s.loops[l].queue| && s.loops[l].queue[i].conn == c ::
               var f := s.loops[l].queue[i];
               f.Notify? || (state == C.KDisconnected && !f.Establish?)
    ensures QueuesOk(SetState(s, c, state))
  {
    var t := SetState(s, c, state);
    forall l, i | l in t.loops && 0 <= i < |t.loops[l].queue|
      ensures FunctorOk(t, l, t.loops[l].queue[i])
    {
      assert FunctorOk(s, l, s.loops[l].queue[i]);
    }
  }

  lemma SetStateConns(s: State, c: ConnId, state: C.StateE, skip: Option<ConnId>)
    requires WellFormed(s) && ConnsOk(s, skip) && Known(s, c)
    ensures ConnsOk(SetState(s, c, state), Some(c)) || (skip != None && skip != Some(c))
  {
    if skip == None || skip == Some(c) {
      var t := SetState(s, c, state);
      forall d | d in t.conns && d != c
        ensures AnchorOk(t, d) && StateOk(t, d)
      {
        assert AnchorOk(s, d) && StateOk(s, d);
      }
    }
  }

  /** The result of a mask change in one piece: the poller's call always succeeds. */
  ghost predicate Masked(s: State, t: State, c: ConnId, mask: Events)
    requires Known(s, c)
  {
    var conn := s.conns[c];
    var l := s.loops[conn.loop];
    && t == s.(conns := t.conns, loops := t.loops)
    && t.conns == s.conns[c := conn.(events := mask, index := UpdateIndex(conn.index, mask))]
    && t.loops == s.loops[conn.loop := l.(
         channels := l.channels[conn.fd := c],
         kernel := Ctl(l.kernel, UpdateOp(conn.index, mask), conn.fd, Interest(mask, c)))]
  }

  lemma SetEventsMasks(s: State, c: ConnId, mask: Events)
    requires PollersOk(s) && c in s.conns && s.conns[c].open
    ensures Masked(s, SetEvents(s, c, mask), c, mask)
  {
    var conn := s.conns[c];
    var l := s.loops[conn.loop];
    KernelHasAdded(s, c);
    if !conn.index.New? {
      assert l.channels[conn.fd := c] == l.channels;
    }
  }

  lemma KernelHasAdded(s: State, c: ConnId)
    requires PollersOk(s) && c in s.conns && s.conns[c].open
    ensures s.conns[c].index == Added <==> s.conns[c].fd in s.loops[s.conns[c].loop].kernel
  {
  }

  lemma MaskedRegistered(s: State, t: State, c: ConnId, mask: Events)
    requires PollersOk(s) && c in s.conns && s.conns[c].open && Masked(s, t, c, mask) && WellFormed(t)
    ensures Registered(t)
  {
    MaskedOwners(s, t, c, mask);
    forall d | d in t.conns && t.conns[d].index != New
      ensures var l := t.loops[t.conns[d].loop]; t.conns[d].fd in l.channels && l.channels[t.conns[d].fd] == d
    {
      if d != c {
        assert t.conns[d] == s.conns[d] && s.conns[d].fd != s.conns[c].fd;
      }
    }
  }

  lemma MaskedOwners(s: State, t: State, c: ConnId, mask: Events)
    requires PollersOk(s) && c in s.conns && s.conns[c].open && Masked(s, t, c, mask) && WellFormed(t)
    ensures forall l, fd | l in t.loops && fd in t.loops[l].channels ::
              var d := t.loops[l].channels[fd];
              d in t.conns && t.conns[d].fd == fd && t.conns[d].loop == l && t.conns[d].index != New
  {
    forall l, fd | l in t.loops && fd in t.loops[l].channels
      ensures var d := t.loops[l].channels[fd];
              d in t.conns && t.conns[d].fd == fd && t.conns[d].loop == l && t.conns[d].index != New
    {
      if l != s.conns[c].loop || fd != s.conns[c].fd {
        assert fd in s.loops[l].channels && t.loops[l].channels[fd] == s.loops[l].channels[fd];
      }
    }
  }

  lemma MaskedWatched(s: State, t: State, c: ConnId, mask: Events)
    requires PollersOk(s) && c in s.conns && s.conns[c].open && Masked(s, t, c, mask) && WellFormed(t)
    ensures Watched(t)
  {
    MaskedEntries(s, t, c, mask);
    forall d | d in t.conns && t.conns[d].index == Added
      ensures var l := t.loops[t.conns[d].loop];
              t.conns[d].fd in l.kernel && l.kernel[t.conns[d].fd] == Interest(t.conns[d].events, d)
    {
      if d != c {
        assert t.conns[d] == s.conns[d] && s.conns[d].fd != s.conns[c].fd;
      }
    }
  }

  lemma MaskedEntries(s: State, t: State, c: ConnId, mask: Events)
    requires PollersOk(s) && c in s.conns && s.conns[c].open && Masked(s, t, c, mask) && WellFormed(t)
    ensures forall l, fd | l in t.loops && fd in t.loops[l].kernel ::
              var d := t.loops[l].kernel[fd].channel;
              d in t.conns && t.conns[d].fd == fd && t.conns[d].loop == l && t.conns[d].index == Added
  {
    forall l, fd | l in t.loops && fd in t.loops[l].kernel
      ensures var d := t.loops[l].kernel[fd].channel;
              d in t.conns && t.conns[d].fd == fd && t.conns[d].loop == l && t.conns[d].index == Added
    {
      if l != s.conns[c].loop || fd != s.conns[c].fd {
        assert fd in s.loops[l].kernel && t.loops[l].kernel[fd] == s.loops[l].kernel[fd];
      } else {
        assert t.loops[l].kernel[fd].channel == c;
      }
    }
  }

  lemma MaskedFrames(s: State, t: State, c: ConnId, mask: Events)
    requires QueuesOk(s) && DispatchOk(s) && Known(s, c) && Masked(s, t, c, mask)
    ensures QueuesOk(t) && DispatchOk(t)
  {
    QueuesFrame(s, t);
    DispatchFrame(s, t);
  }

  lemma MaskedConns(s: State, t: State, c: ConnId, mask: Events)
    requires WellFormed(s) && WellFormed(t) && ConnsOk(s, Some(c)) && Known(s, c) && Masked(s, t, c, mask)
    ensures ConnsOk(t, Some(c))
  {
    forall d | d in t.conns && d != c
      ensures AnchorOk(t, d) && StateOk(t, d)
    {
      assert AnchorOk(s, d) && StateOk(s, d);
    }
  }

  /** The mask change keeps the three-way agreement; its epoll_ctl call is never refused. */
  lemma MaskKeepsPollers(s: State, c: ConnId, mask: Events)
    requires PollersOk(s) && c in s.conns && s.conns[c].open
    ensures PollersOk(SetEvents(s, c, mask)) && Masked(s, SetEvents(s, c, mask), c, mask)
  {
    SetEventsMasks(s, c, mask);
    var t := SetEvents(s, c, mask);
    assert WellFormed(t) && FdsOk(t);
    MaskedRegistered(s, t, c, mask);
    MaskedWatched(s, t, c, mask);
  }

  /** A mask change keeps everything but what concerns the connection itself. */
  lemma SetEventsKeeps(s: State, c: ConnId, mask: Events)
    requires PollersOk(s) && QueuesOk(s) && DispatchOk(s) && ConnsOk(s, Some(c)) && c in s.conns && s.conns[c].open
    ensures var t := SetEvents(s, c, mask);
            PollersOk(t) && QueuesOk(t) && DispatchOk(t) && ConnsOk(t, Some(c)) && Masked(s, t, c, mask)
  {
    MaskKeepsPollers(s, c, mask);
    var t := SetEvents(s, c, mask);
    MaskedFrames(s, t, c, mask);
    MaskedConns(s, t, c, mask);
  }

  lemma ConnsWhole(s: State, c: ConnId)
    requires WellFormed(s) && ConnsOk(s, Some(c)) && (c in s.conns ==> AnchorOk(s, c) && StateOk(s, c))
    ensures ConnsOk(s, None)
  {
  }

  lemma UserWritingKeeps(s: State, c: ConnId, on: bool)
    requires Inv(s) && Enabled(s, UserWriting(c, on))
    ensures Inv(Apply(s, UserWriting(c, on)))
  {
    WritingKeeps(s, c, s.conns[c].events.(write := on));
  }

  lemma WritingKeeps(s: State, c: ConnId, mask: Events)
    requires Inv(s) && Known(s, c) && mask.read == s.conns[c].events.read
    requires s.conns[c].state == C.KConnected || s.conns[c].state == C.KDisconnecting
    ensures Inv(SetEvents(s, c, mask))
  {
    assert AnchorOk(s, c) && StateOk(s, c);
    SetEventsKeeps(s, c, mask);
    WritingWhole(s, SetEvents(s, c, mask), c, mask);
    ConnsWhole(SetEvents(s, c, mask), c);
  }

  /** The send path's switch reaches the kernel: it watches the channel for reading, and for writing
      if and only if that was asked for. */
  lemma WritingIsWatched(s: State, c: ConnId, on: bool)
    requires Inv(s) && Enabled(s, UserWriting(c, on))
    ensures var t := Apply(s, UserWriting(c, on));
            && Known(t, c) && t.conns[c].events == Events(true, on)
            && t.conns[c].fd in t.loops[t.conns[c].loop].kernel
            && t.loops[t.conns[c].loop].kernel[t.conns[c].fd] == Interest(Events(true, on), c)
  {
    assert StateOk(s, c);
    SetEventsMasks(s, c, Events(true, on));
  }

  /** A connection that is up and goes on reading stays whole. */
  lemma WritingWhole(s: State, t: State, c: ConnId, mask: Events)
    requires Known(s, c) && Masked(s, t, c, mask) && AnchorOk(s, c) && StateOk(s, c) && mask.read
    requires s.conns[c].state == C.KConnected || s.conns[c].state == C.KDisconnecting
    ensures Known(t, c) && AnchorOk(t, c) && StateOk(t, c)
  {
  }

  /** `shutdown()` on a connection that is up: no functor but callbacks can be queued for it. */
  lemma OnlyNotices(s: State, c: ConnId)
    requires QueuesOk(s) && c in s.conns && s.conns[c].state.KConnected?
    ensures forall l, i | l in s.loops && 0 <= i < |s.loops[l].queue| && s.loops[l].queue[i].conn == c ::
              s.loops[l].queue[i].Notify?
  {
    forall l, i | l in s.loops && 0 <= i < |s.loops[l].queue| && s.loops[l].queue[i].conn == c
      ensures s.loops[l].queue[i].Notify?
    {
      assert FunctorOk(s, l, s.loops[l].queue[i]);
    }
  }

  lemma ShutdownState(s: State, c: ConnId)
    requires Inv(s) && InUse(s, c) && s.conns[c].state.KConnected?
    ensures Inv(SetState(s, c, C.KDisconnecting))
    ensures forall l, i | l in s.loops && 0 <= i < |s.loops[l].queue| && s.loops[l].queue[i].conn == c ::
              s.loops[l].queue[i].Notify?
  {
    assert StateOk(s, c);
    OnlyNotices(s, c);
    SetStateFrames(s, c, C.KDisconnecting);
    SetStateQueues(s, c, C.KDisconnecting);
    SetStateConns(s, c, C.KDisconnecting, None);
    ConnsWhole(SetState(s, c, C.KDisconnecting), c);
  }

  lemma UserShutdownKeeps(s: State, c: ConnId)
    requires Inv(s) && Enabled(s, UserShutdown(c))
    ensures Inv(Apply(s, UserShutdown(c)))
  {
    assert StateOk(s, c);
    ShutdownState(s, c);
    PushKeeps(SetState(s, c, C.KDisconnecting), s.conns[c].loop, Shutdown(c));
  }

  // ---------------------------------------------------------------- establishment

  /** A connection that is in the map, not yet registered and not queued to be. */
  ghost predicate Establishable(s: State, c: ConnId) {
    Inv(s) && c in s.conns && s.conns[c].state == C.KConnecting && forall l :: !Queued(s, l, Establish(c))
  }

  lemma EstablishKeeps(s: State, c: ConnId)
    requires Establishable(s, c)
    ensures Inv(ConnectEstablished(s, c))
  {
    assert StateOk(s, c) && s.conns[c].open;
    var m := SetState(s, c, C.KConnected);
    var mask := s.conns[c].events.(read := true);
    forall l, i | l in s.loops && 0 <= i < |s.loops[l].queue| && s.loops[l].queue[i].conn == c
      ensures s.loops[l].queue[i].Notify?
    {
      assert FunctorOk(s, l, s.loops[l].queue[i]);
      assert Queued(s, l, s.loops[l].queue[i]);
    }
    SetStateFrames(s, c, C.KConnected);
    SetStateQueues(s, c, C.KConnected);
    SetStateConns(s, c, C.KConnected, None);
    SetEventsKeeps(m, c, mask);
    ConnsWhole(SetEvents(m, c, mask), c);
  }

  /** The state with the new connection in the map, before it is handed to its loop. */
  function Accepted(s: State, fd: Fd, l: LoopId): State {
    var c := s.nextConnId;
    s.(nextConnId := c + 1,
       conns := s.conns[c := Conn(fd, l, C.KConnecting, NO_EVENTS, New, true)],
       connections := s.connections[Name(c) := c])
  }

  lemma AcceptedRegistered(s: State, fd: Fd, l: LoopId)
    requires PollersOk(s) && Enabled(s, Accept(fd, l)) && WellFormed(Accepted(s, fd, l))
    ensures Registered(Accepted(s, fd, l))
  {
    assert s.nextConnId !in s.conns;
  }

  lemma AcceptedWatched(s: State, fd: Fd, l: LoopId)
    requires PollersOk(s) && Enabled(s, Accept(fd, l)) && WellFormed(Accepted(s, fd, l))
    ensures Watched(Accepted(s, fd, l))
  {
    assert s.nextConnId !in s.conns;
  }

  lemma AcceptedPollers(s: State, fd: Fd, l: LoopId)
    requires PollersOk(s) && Enabled(s, Accept(fd, l))
    ensures PollersOk(Accepted(s, fd, l))
  {
    var t := Accepted(s, fd, l);
    assert s.nextConnId !in s.conns;
    assert WellFormed(t) && FdsOk(t);
    AcceptedRegistered(s, fd, l);
    AcceptedWatched(s, fd, l);
  }

  lemma AcceptedKeeps(s: State, fd: Fd, l: LoopId)
    requires Inv(s) && Enabled(s, Accept(fd, l))
    ensures Inv(Accepted(s, fd, l))
    ensures forall k, f | Queued(s, k, f) :: f.conn != s.nextConnId
  {
    var t, c := Accepted(s, fd, l), s.nextConnId;
    NamesDistinct();
    AcceptedPollers(s, fd, l);
    QueuesFrame(s, t);
    DispatchFrame(s, t);
    QueuedKnown(s);
    AcceptedConns(s, fd, l);
  }

  lemma QueuedKnown(s: State)
    requires QueuesOk(s)
    ensures forall k, f | Queued(s, k, f) :: f.conn in s.conns
  {
    forall k, f | Queued(s, k, f)
      ensures f.conn in s.conns
    {
      var i :| 0 <= i < |s.loops[k].queue| && s.loops[k].queue[i] == f;
      assert FunctorOk(s, k, s.loops[k].queue[i]);
    }
  }

  lemma AcceptedConns(s: State, fd: Fd, l: LoopId)
    requires WellFormed(s) && ConnsOk(s, None) && WellFormed(Accepted(s, fd, l))
    requires forall k, f | Queued(s, k, f) :: f.conn != s.nextConnId
    ensures ConnsOk(Accepted(s, fd, l), None)
  {
    NamesDistinct();
    var t, c := Accepted(s, fd, l), s.nextConnId;
    assert MapOk(t);
    forall d | d in t.conns
      ensures AnchorOk(t, d) && StateOk(t, d)
    {
      if d != c {
        assert AnchorOk(s, d) && StateOk(s, d);
      }
    }
  }

  lemma AcceptedEstablishable(s: State, fd: Fd, l: LoopId)
    requires Inv(s) && Enabled(s, Accept(fd, l))
    ensures Establishable(Accepted(s, fd, l), s.nextConnId)
  {
    AcceptedKeeps(s, fd, l);
    assert forall k, f | Queued(Accepted(s, fd, l), k, f) :: Queued(s, k, f);
  }

  lemma AcceptKeeps(s: State, fd: Fd, l: LoopId)
    requires Inv(s) && Enabled(s, Accept(fd, l))
    ensures Inv(Apply(s, Accept(fd, l)))
  {
    var t, c := Accepted(s, fd, l), s.nextConnId;
    AcceptedKeeps(s, fd, l);
    assert forall k, f | Queued(t, k, f) :: Queued(s, k, f);
    assert Apply(s, Accept(fd, l)) == if l == BASE then ConnectEstablished(t, c) else Push(t, l, Establish(c));
    assert Establishable(t, c);
    if l == BASE {
      EstablishKeeps(t, c);
    } else {
      assert forall i | 0 <= i < |t.loops[l].queue| :: Queued(s, l, t.loops[l].queue[i]);
      PushKeeps(t, l, Establish(c));
    }
  }

  // ---------------------------------------------------------------- closing

  /** `handleClose` or the removal functor is at work on `c`: all is well but for the anchor of
      a connection that is down. */
  ghost predicate Closing(s: State, c: ConnId) {
    && PollersOk(s) && QueuesOk(s) && DispatchOk(s) && ConnsOk(s, Some(c))
    && c in s.conns && s.conns[c].open && s.conns[c].state == C.KDisconnected && s.conns[c].events == NO_EVENTS
  }

  /** `removeConnectionInLoop` completes a removal: the entry goes, the destruction is queued. */
  lemma RemoveConnectionKeeps(s: State, c: ConnId)
    requires Closing(s, c)
    ensures Inv(RemoveConnectionInLoop(s, c))
  {
    var e := s.(connections := s.connections - {Name(c)});
    PollersFrame(s, e);
    QueuesFrame(s, e);
    DispatchFrame(s, e);
    ErasedConns(s, c);
    CompleteRemoval(e, s.conns[c].loop, Destroy(c), c);
  }

  /** So does `removeConnection`, on whichever loop. */
  lemma RemovalKeeps(s: State, l: LoopId, c: ConnId)
    requires Closing(s, c)
    ensures Inv(RemoveConnection(s, l, c)) && Anchored(RemoveConnection(s, l, c), c)
  {
    if l == BASE {
      RemoveConnectionKeeps(s, c);
      assert Queued(RemoveConnection(s, l, c), s.conns[c].loop, Destroy(c));
    } else {
      CompleteRemoval(s, BASE, RemoveConn(c), c);
      assert Queued(RemoveConnection(s, l, c), BASE, RemoveConn(c));
    }
  }

  /** The pushed functor is the anchor the connection was missing. */
  lemma CompleteRemoval(s: State, l: LoopId, f: Functor, c: ConnId)
    requires PollersOk(s) && QueuesOk(s) && DispatchOk(s) && ConnsOk(s, Some(c))
    requires c in s.conns && s.conns[c].open && s.conns[c].state == C.KDisconnected
    requires s.conns[c].events == NO_EVENTS
    requires (f == Destroy(c) && l == s.conns[c].loop && !InMap(s, c)) || (f == RemoveConn(c) && l == BASE)
    ensures Inv(Push(s, l, f))
  {
    var t := Push(s, l, f);
    PushPollers(s, l, f);
    PushQueues(s, l, f);
    PushConns(s, l, f, Some(c));
    PushDispatch(s, l, f);
    PushedAnchor(s, l, f, c);
    ConnsWhole(t, c);
  }

  lemma PushedAnchor(s: State, l: LoopId, f: Functor, c: ConnId)
    requires Known(s, c) && l in s.loops && s.conns[c].state == C.KDisconnected && s.conns[c].events == NO_EVENTS
    requires (f == Destroy(c) && l == s.conns[c].loop && !InMap(s, c)) || (f == RemoveConn(c) && l == BASE)
    ensures AnchorOk(Push(s, l, f), c) && StateOk(Push(s, l, f), c)
  {
    assert Queued(Push(s, l, f), l, f);
  }

  lemma ErasedConns(s: State, c: ConnId)
    requires WellFormed(s) && ConnsOk(s, Some(c)) && Known(s, c)
    ensures ConnsOk(s.(connections := s.connections - {Name(c)}), Some(c))
  {
    var e := s.(connections := s.connections - {Name(c)});
    NamesDistinct();
    forall d | d in e.conns && d != c
      ensures AnchorOk(e, d) && StateOk(e, d)
    {
      assert AnchorOk(s, d) && StateOk(s, d);
      assert InMap(e, d) <==> InMap(s, d);
    }
  }

  /** What `handleClose` has done before it calls the close callback. */
  function Masking(s: State, c: ConnId): State
    requires Known(s, c)
  {
    SetEvents(SetState(s, c, C.KDisconnected), c, NO_EVENTS)
  }

  lemma CloseMasks(s: State, l: LoopId, c: ConnId)
    requires Inv(s) && OnLoop(s, l, c)
    ensures Closing(Masking(s, c), c) && OnLoop(Masking(s, c), l, c)
  {
    assert StateOk(s, c) && s.conns[c].open;
    forall k, i | k in s.loops && 0 <= i < |s.loops[k].queue| && s.loops[k].queue[i].conn == c
      ensures !s.loops[k].queue[i].Establish?
    {
      assert FunctorOk(s, k, s.loops[k].queue[i]);
    }
    SetStateFrames(s, c, C.KDisconnected);
    SetStateQueues(s, c, C.KDisconnected);
    SetStateConns(s, c, C.KDisconnected, None);
    SetEventsKeeps(SetState(s, c, C.KDisconnected), c, NO_EVENTS);
  }

  /** `handleClose`, on any registered connection and as often as it happens. */
  lemma HandleCloseKeeps(s: State, l: LoopId, c: ConnId)
    requires Inv(s) && OnLoop(s, l, c)
    ensures Inv(HandleClose(s, l, c))
  {
    CloseMasks(s, l, c);
    RemovalKeeps(Masking(s, c), l, c);
  }

  lemma RunCallbackKeeps(s: State, l: LoopId, eof: bool)
    requires Inv(s) && Enabled(s, RunCallback(l, eof))
    ensures Inv(Apply(s, RunCallback(l, eof)))
  {
    var loop := s.loops[l];
    var m := PutLoop(s, l, loop.(todo := loop.todo[1..]));
    LoopMoves(s, l, m.loops[l]);
    if Closes(loop.todo[0], eof) {
      HandleCloseKeeps(m, l, loop.current.value);
    }
  }

  // ---------------------------------------------------------------- destruction

  /** The result of `removeChannel` in one piece: the two entries under the descriptor go. */
  ghost predicate Unregistered(s: State, t: State, c: ConnId)
    requires Known(s, c)
  {
    var conn := s.conns[c];
    var l := s.loops[conn.loop];
    && t == s.(conns := t.conns, loops := t.loops)
    && t.conns == s.conns[c := conn.(index := New)]
    && t.loops == s.loops[conn.loop := l.(channels := l.channels - {conn.fd}, kernel := l.kernel - {conn.fd})]
  }

  lemma RemoveChannelUnregisters(s: State, c: ConnId)
    requires PollersOk(s) && c in s.conns && s.conns[c].open
    ensures Unregistered(s, RemoveChannel(s, c), c)
  {
    KernelHasAdded(s, c);
    RemoveChannelComputes(s, c);
  }

  lemma RemoveChannelComputes(s: State, c: ConnId)
    requires Known(s, c) && (s.conns[c].index == Added <==> s.conns[c].fd in s.loops[s.conns[c].loop].kernel)
    ensures Unregistered(s, RemoveChannel(s, c), c)
  {
    var conn := s.conns[c];
    var l := s.loops[conn.loop];
    if !conn.index.Added? {
      assert l.kernel - {conn.fd} == l.kernel;
    }
  }

  lemma UnregisteredPollers(s: State, t: State, c: ConnId)
    requires PollersOk(s) && c in s.conns && s.conns[c].open && Unregistered(s, t, c)
    ensures PollersOk(t)
  {
    assert WellFormed(t) && FdsOk(t);
    UnregisteredRegistered(s, t, c);
    UnregisteredWatched(s, t, c);
  }

  lemma UnregisteredRegistered(s: State, t: State, c: ConnId)
    requires PollersOk(s) && c in s.conns && s.conns[c].open && Unregistered(s, t, c) && WellFormed(t)
    ensures Registered(t)
  {
    forall l, fd | l in t.loops && fd in t.loops[l].channels
      ensures var d := t.loops[l].channels[fd];
              d in t.conns && t.conns[d].fd == fd && t.conns[d].loop == l && t.conns[d].index != New
    {
      assert fd in s.loops[l].channels && t.loops[l].channels[fd] == s.loops[l].channels[fd];
    }
    forall d | d in t.conns && t.conns[d].index != New
      ensures var l := t.loops[t.conns[d].loop]; t.conns[d].fd in l.channels && l.channels[t.conns[d].fd] == d
    {
      assert t.conns[d] == s.conns[d] && s.conns[d].fd != s.conns[c].fd;
    }
  }

  lemma UnregisteredWatched(s: State, t: State, c: ConnId)
    requires PollersOk(s) && c in s.conns && s.conns[c].open && Unregistered(s, t, c) && WellFormed(t)
    ensures Watched(t)
  {
    forall l, fd | l in t.loops && fd in t.loops[l].kernel
      ensures var d := t.loops[l].kernel[fd].channel;
              d in t.conns && t.conns[d].fd == fd && t.conns[d].loop == l && t.conns[d].index == Added
    {
      assert fd in s.loops[l].kernel && t.loops[l].kernel[fd] == s.loops[l].kernel[fd];
    }
    forall d | d in t.conns && t.conns[d].index == Added
      ensures var l := t.loops[t.conns[d].loop];
              t.conns[d].fd in l.kernel && l.kernel[t.conns[d].fd] == Interest(t.conns[d].events, d)
    {
      assert t.conns[d] == s.conns[d] && s.conns[d].fd != s.conns[c].fd;
    }
  }

  /** `connectDestroyed` as it is reached: the connection is disconnected, its loop is past its
      dispatch phase, and no raw shutdown of it is queued behind. */
  ghost predicate Destroyable(s: State, c: ConnId) {
    && PollersOk(s) && QueuesOk(s) && DispatchOk(s) && ConnsOk(s, Some(c))
    && c in s.conns && s.conns[c].open && s.conns[c].state == C.KDisconnected
    && s.loops[s.conns[c].loop].phase.Functors?
    && StateOk(s, c) && !Queued(s, s.conns[c].loop, Shutdown(c))
  }

  lemma DestroyKeeps(s: State, c: ConnId)
    requires Destroyable(s, c)
    ensures Inv(ConnectDestroyed(s, c))
  {
    var t := ConnectDestroyed(s, c);
    RemoveChannelUnregisters(s, c);
    UnregisteredPollers(s, t, c);
    UnregisteredQueues(s, t, c);
    UnregisteredConns(s, t, c);
    UnregisteredDispatch(s, t, c);
  }

  lemma UnregisteredQueues(s: State, t: State, c: ConnId)
    requires QueuesOk(s) && Known(s, c) && Unregistered(s, t, c)
    ensures QueuesOk(t)
  {
    QueuesFrame(s, t);
  }

  lemma UnregisteredConns(s: State, t: State, c: ConnId)
    requires WellFormed(s) && WellFormed(t) && ConnsOk(s, Some(c)) && c in s.conns && Unregistered(s, t, c)
    requires s.conns[c].state == C.KDisconnected
    requires StateOk(s, c) && !Queued(s, s.conns[c].loop, Shutdown(c))
    ensures ConnsOk(t, None)
  {
    forall d | d in t.conns
      ensures AnchorOk(t, d) && StateOk(t, d)
    {
      if d != c {
        assert AnchorOk(s, d) && StateOk(s, d);
      }
    }
  }

  lemma UnregisteredDispatch(s: State, t: State, c: ConnId)
    requires WellFormed(s) && DispatchOk(s) && c in s.conns && Unregistered(s, t, c)
    requires s.loops[s.conns[c].loop].phase.Functors?
    ensures DispatchOk(t)
  {
  }

  /** A destruction at the head of a batch finds what it needs ... */
  lemma PoppedDestroyable(s: State, l: LoopId, c: ConnId)
    requires Inv(s) && Enabled(s, RunFunctor(l)) && s.loops[l].queue[0] == Destroy(c)
    ensures Destroyable(Popped(s, l), c)
  {
    assert FunctorOk(s, l, s.loops[l].queue[0]);
    PoppedKeeps(s, l);
    PoppedConns(s, l);
    PoppedDestroy(s, l, c);
    NoConflictBehind(s, l);
  }

  /** ... and so does an establishment ... */
  lemma PoppedEstablishable(s: State, l: LoopId, c: ConnId)
    requires Inv(s) && Enabled(s, RunFunctor(l)) && s.loops[l].queue[0] == Establish(c)
    ensures Establishable(Popped(s, l), c)
  {
    assert FunctorOk(s, l, s.loops[l].queue[0]);
    PoppedKeeps(s, l);
    PoppedConns(s, l);
    NoConflictBehind(s, l);
  }

  /** ... and a removal. */
  lemma PoppedClosing(s: State, l: LoopId, c: ConnId)
    requires Inv(s) && Enabled(s, RunFunctor(l)) && s.loops[l].queue[0] == RemoveConn(c)
    ensures Closing(Popped(s, l), c)
  {
    assert FunctorOk(s, l, s.loops[l].queue[0]);
    PoppedKeeps(s, l);
    PoppedConns(s, l);
    assert StateOk(s, c);
    assert Popped(s, l).conns == s.conns;
  }

  /** What a functor needs to find when it starts. */
  ghost predicate Ready(s: State, f: Functor) {
    match f
    case Establish(c) => Establishable(s, c)
    case RemoveConn(c) => Closing(s, c)
    case Destroy(c) => Destroyable(s, c)
    case _ => Known(s, f.conn)
  }

  lemma PoppedReady(s: State, l: LoopId)
    requires Inv(s) && Enabled(s, RunFunctor(l))
    ensures Ready(Popped(s, l), s.loops[l].queue[0])
  {
    match s.loops[l].queue[0]
    case Establish(c) => PoppedEstablishable(s, l, c);
    case RemoveConn(c) => PoppedClosing(s, l, c);
    case Destroy(c) => PoppedDestroyable(s, l, c);
    case _ =>
  }

  lemma RunOtherKeeps(s: State, l: LoopId)
    requires Inv(s) && Enabled(s, RunFunctor(l)) && (s.loops[l].queue[0].Shutdown? || s.loops[l].queue[0].Notify?)
    ensures Inv(Apply(s, RunFunctor(l)))
  {
    PoppedKeeps(s, l);
    PoppedConns(s, l);
  }

  /** Every functor at the head of a batch keeps the invariant when it runs. */
  lemma RunFunctorKeeps(s: State, l: LoopId)
    requires Inv(s) && Enabled(s, RunFunctor(l))
    ensures Inv(Apply(s, RunFunctor(l)))
  {
    PoppedReady(s, l);
    match s.loops[l].queue[0]
    case Establish(c) => EstablishKeeps(Popped(s, l), c);
    case RemoveConn(c) => RemoveConnectionKeeps(Popped(s, l), c);
    case Destroy(c) => DestroyKeeps(Popped(s, l), c);
    case _ => RunOtherKeeps(s, l);
  }

  lemma NoConflictBehind(s: State, l: LoopId)
    requires QueuesOk(s) && l in s.loops && s.loops[l].queue != [] && s.loops[l].batch > 0
    ensures var f, m := s.loops[l].queue[0], Popped(s, l);
            && (f.Establish? ==> forall k :: !Queued(m, k, f))
            && (f.Destroy? ==> !Queued(m, l, Shutdown(f.conn)))
  {
    var f, m := s.loops[l].queue[0], Popped(s, l);
    assert FunctorOk(s, l, s.loops[l].queue[0]);
    forall k, g | Queued(m, k, g) && f.Establish?
      ensures g != f
    {
      if k == l {
        var i :| 0 <= i < |m.loops[l].queue| && m.loops[l].queue[i] == g;
        assert !Conflict(s.loops[l].queue[0], s.loops[l].queue[i + 1]);
      } else {
        var i :| 0 <= i < |s.loops[k].queue| && s.loops[k].queue[i] == g;
        assert FunctorOk(s, k, s.loops[k].queue[i]);
      }
    }
    forall i | 0 <= i < |m.loops[l].queue| && f.Destroy?
      ensures m.loops[l].queue[i] != Shutdown(f.conn)
    {
      assert !Conflict(s.loops[l].queue[0], s.loops[l].queue[i + 1]);
    }
  }

  /** A connection nothing holds is out of its poller, so its descriptor may be reused. */
  lemma UnheldUnregistered(s: State, c: ConnId)
    requires Inv(s) && Known(s, c) && !Held(s, c)
    ensures s.conns[c].index == New
    ensures forall l, i | l in s.loops && 0 <= i < |s.loops[l].queue| :: s.loops[l].queue[i].conn != c
    ensures forall n | n in s.connections :: s.connections[n] != c
  {
    assert AnchorOk(s, c);
    forall l, i | l in s.loops && 0 <= i < |s.loops[l].queue|
      ensures s.loops[l].queue[i].conn != c
    {
      assert FunctorOk(s, l, s.loops[l].queue[i]);
      assert Queued(s, l, s.loops[l].queue[i]);
    }
  }

  /** Closing an unheld socket changes nothing but the flag: the kernel had forgotten it. */
  ghost predicate Closed(s: State, t: State, c: ConnId)
    requires Known(s, c)
  {
    t == s.(conns := s.conns[c := s.conns[c].(open := false)])
  }

  lemma ClosedPollers(s: State, t: State, c: ConnId)
    requires PollersOk(s) && Known(s, c) && Closed(s, t, c) && s.conns[c].index == New
    ensures PollersOk(t)
  {
    assert WellFormed(t) && FdsOk(t);
    ClosedRegistered(s, t, c);
    ClosedWatched(s, t, c);
  }

  lemma ClosedRegistered(s: State, t: State, c: ConnId)
    requires PollersOk(s) && Known(s, c) && Closed(s, t, c) && s.conns[c].index == New && WellFormed(t)
    ensures Registered(t)
  {
  }

  lemma ClosedWatched(s: State, t: State, c: ConnId)
    requires PollersOk(s) && Known(s, c) && Closed(s, t, c) && s.conns[c].index == New && WellFormed(t)
    ensures Watched(t)
  {
  }

  lemma ClosedQueues(s: State, t: State, c: ConnId)
    requires QueuesOk(s) && Known(s, c) && Closed(s, t, c)
    requires forall l, i | l in s.loops && 0 <= i < |s.loops[l].queue| :: s.loops[l].queue[i].conn != c
    ensures QueuesOk(t)
  {
    forall l, i | l in t.loops && 0 <= i < |t.loops[l].queue|
      ensures FunctorOk(t, l, t.loops[l].queue[i])
    {
      assert FunctorOk(s, l, s.loops[l].queue[i]);
    }
  }

  lemma ClosedConns(s: State, t: State, c: ConnId)
    requires WellFormed(s) && WellFormed(t) && ConnsOk(s, None) && Known(s, c) && Closed(s, t, c)
    requires forall n | n in s.connections :: s.connections[n] != c
    ensures ConnsOk(t, None)
  {
    forall d | d in t.conns
      ensures AnchorOk(t, d) && StateOk(t, d)
    {
      assert AnchorOk(s, d) && StateOk(s, d);
    }
  }

  lemma ReleasedCloses(s: State, c: ConnId)
    requires PollersOk(s) && Known(s, c) && s.conns[c].open && s.conns[c].index == New
    ensures Closed(s, Released(s, c), c)
  {
    var l := s.loops[s.conns[c].loop];
    OwnEntries(s, c);
    assert s.conns[c].fd !in l.kernel;
    assert l.kernel - {s.conns[c].fd} == l.kernel;
    assert s.loops[s.conns[c].loop := l] == s.loops;
  }

  lemma CloseSocketKeeps(s: State, c: ConnId)
    requires Inv(s) && Enabled(s, CloseSocket(c))
    ensures Inv(Apply(s, CloseSocket(c)))
  {
    UnheldUnregistered(s, c);
    ReleasedCloses(s, c);
    ClosedKeeps(s, Released(s, c), c);
  }

  lemma ClosedKeeps(s: State, t: State, c: ConnId)
    requires Inv(s) && Known(s, c) && Closed(s, t, c) && s.conns[c].index == New
    requires forall l, i | l in s.loops && 0 <= i < |s.loops[l].queue| :: s.loops[l].queue[i].conn != c
    requires forall n | n in s.connections :: s.connections[n] != c
    ensures Inv(t)
  {
    ClosedPollers(s, t, c);
    ClosedQueues(s, t, c);
    ClosedConns(s, t, c);
    ClosedDispatch(s, t, c);
  }

  lemma ClosedDispatch(s: State, t: State, c: ConnId)
    requires DispatchOk(s) && Known(s, c) && Closed(s, t, c)
    ensures DispatchOk(t)
  {
    DispatchFrame(s, t);
  }

  // ---------------------------------------------------------------- every reachable state

  lemma StepKeeps(s: State, step: Step)
    requires Inv(s) && Enabled(s, step)
    ensures Inv(Apply(s, step))
  {
    match step
    case Accept(fd, l) => AcceptKeeps(s, fd, l);
    case Poll(l, reported) => PollKeeps(s, l, reported);
    case BeginEvent(l) => BeginEventKeeps(s, l);
    case RunCallback(l, eof) => RunCallbackKeeps(s, l, eof);
    case EndEvent(l) => EndEventKeeps(s, l);
    case TakeFunctors(l) => TakeFunctorsKeeps(s, l);
    case RunFunctor(l) => RunFunctorKeeps(s, l);
    case EndFunctors(l) => EndFunctorsKeeps(s, l);
    case UserShutdown(c) => UserShutdownKeeps(s, c);
    case UserWriting(c, on) => UserWritingKeeps(s, c, on);
    case UserNotify(c) => UserNotifyKeeps(s, c);
    case CloseSocket(c) => CloseSocketKeeps(s, c);
  }

  ghost predicate Runnable(s: State, steps: seq<Step>)
    decreases steps
  {
    steps == [] || (Enabled(s, steps[0]) && Runnable(Apply(s, steps[0]), steps[1..]))
  }

  ghost function Run(s: State, steps: seq<Step>): State
    requires Runnable(s, steps)
    decreases steps
  {
    if steps == [] then s else Run(Apply(s, steps[0]), steps[1..])
  }

  lemma {:induction false} RunKeeps(s: State, steps: seq<Step>)
    requires Inv(s) && Runnable(s, steps)
    ensures Inv(Run(s, steps))
    decreases steps
  {
    if steps != [] {
      StepKeeps(s, steps[0]);
      RunKeeps(Apply(s, steps[0]), steps[1..]);
    }
  }

  lemma InitOk(s: State)
    requires Init(s)
    ensures Inv(s)
  {
  }

  /** A channel in a poller's map belongs to an open connection that the server's map or a queued
      removal or destruction holds; the kernel watches exactly the channels it should; and no
      epoll_ctl call has failed. */
  ghost predicate Safe(s: State) {
    && s.ctlErrors == 0
    && (forall l, fd | l in s.loops && fd in s.loops[l].channels ::
          var c := s.loops[l].channels[fd];
          Known(s, c) && s.conns[c].open && s.conns[c].fd == fd && Anchored(s, c) && Held(s, c))
    && (forall l, fd | l in s.loops && fd in s.loops[l].kernel ::
          var c := s.loops[l].kernel[fd].channel;
          && fd in s.loops[l].channels && s.loops[l].channels[fd] == c
          && c in s.conns && s.loops[l].kernel[fd].events == s.conns[c].events
          && (s.conns[c].state == C.KDisconnected ==> s.conns[c].events == NO_EVENTS))
  }

  lemma InvSafe(s: State)
    requires Inv(s)
    ensures Safe(s)
  {
    forall l, fd | l in s.loops && fd in s.loops[l].channels
      ensures var c := s.loops[l].channels[fd];
              Known(s, c) && s.conns[c].open && s.conns[c].fd == fd && Anchored(s, c) && Held(s, c)
    {
      assert AnchorOk(s, s.loops[l].channels[fd]);
    }
    forall l, fd | l in s.loops && fd in s.loops[l].kernel
      ensures StateOk(s, s.loops[l].kernel[fd].channel)
    {
    }
  }

  /** Every reachable state is safe. */
  lemma TeardownSafe(s: State, steps: seq<Step>)
    requires Init(s) && Runnable(s, steps)
    ensures Safe(Run(s, steps))
  {
    InitOk(s);
    RunKeeps(s, steps);
    InvSafe(Run(s, steps));
  }

  /** Every channel still to be dispatched, and the one being dispatched, is registered with its
      loop and belongs to an open connection, also when the io loop is the accept loop. */
  lemma DispatchSafe(s: State, steps: seq<Step>, l: LoopId)
    requires Init(s) && Runnable(s, steps) && l in Run(s, steps).loops
    ensures var r := Run(s, steps); var loop := r.loops[l];
            && (forall i | 0 <= i < |loop.active| ::
                  var c := loop.active[i].conn;
                  c in r.conns && r.conns[c].open && r.conns[c].fd in loop.channels && loop.channels[r.conns[c].fd] == c)
            && (loop.current.Some? ==>
                  var c := loop.current.value;
                  c in r.conns && r.conns[c].open && r.conns[c].fd in loop.channels && loop.channels[r.conns[c].fd] == c)
  {
    InitOk(s);
    RunKeeps(s, steps);
    var r := Run(s, steps);
    forall i | 0 <= i < |r.loops[l].active|
      ensures OnLoop(r, l, r.loops[l].active[i].conn)
    {
    }
  }

  ghost predicate FdFree(s: State, fd: Fd) {
    forall l | l in s.loops :: fd !in s.loops[l].channels && fd !in s.loops[l].kernel
  }

  /** Only an open connection's channel can sit under a descriptor. */
  lemma EntriesOpen(s: State, fd: Fd)
    requires PollersOk(s)
    requires forall c | c in s.conns && s.conns[c].open && s.conns[c].fd == fd :: s.conns[c].index == New
    ensures FdFree(s, fd)
  {
  }

  /** A socket is closed, and its descriptor handed out again, only when no poller and no
      kernel interest set has an entry under that descriptor. */
  lemma DescriptorsSafe(s: State, steps: seq<Step>, c: ConnId, fd: Fd, k: LoopId)
    requires Init(s) && Runnable(s, steps)
    ensures var r := Run(s, steps); Enabled(r, CloseSocket(c)) ==> FdFree(r, r.conns[c].fd)
    ensures var r := Run(s, steps); Enabled(r, Accept(fd, k)) ==> FdFree(r, fd)
  {
    InitOk(s);
    RunKeeps(s, steps);
    var r := Run(s, steps);
    if Enabled(r, CloseSocket(c)) {
      UnheldUnregistered(r, c);
      EntriesOpen(r, r.conns[c].fd);
    }
    if Enabled(r, Accept(fd, k)) {
      EntriesOpen(r, fd);
    }
  }

  /** A `shutdownInLoop` that runs finds its connection alive although it does not hold it: it
      is ahead of every destruction of that connection in its queue. */
  lemma RawShutdownSafe(s: State, steps: seq<Step>, l: LoopId)
    requires Init(s) && Runnable(s, steps) && Enabled(Run(s, steps), RunFunctor(l))
    ensures var r := Run(s, steps); var f := r.loops[l].queue[0];
            r.conns[f.conn].open && (f.Shutdown? ==> Held(r, f.conn))
  {
    InitOk(s);
    RunKeeps(s, steps);
    var r := Run(s, steps);
    var f := r.loops[l].queue[0];
    assert FunctorOk(r, l, r.loops[l].queue[0]);
    assert Queued(r, l, f);
    assert AnchorOk(r, f.conn);
    if f.Shutdown? {
      AnchoredOpen(r, f.conn);
    }
  }

  lemma AnchoredOpen(s: State, c: ConnId)
    requires Inv(s) && Known(s, c) && Anchored(s, c)
    ensures s.conns[c].open && Held(s, c)
  {
    var k := s.conns[c].loop;
    if Queued(s, BASE, RemoveConn(c)) {
      var i :| 0 <= i < |s.loops[BASE].queue| && s.loops[BASE].queue[i] == RemoveConn(c);
      assert FunctorOk(s, BASE, s.loops[BASE].queue[i]);
    } else if Queued(s, k, Destroy(c)) {
      var i :| 0 <= i < |s.loops[k].queue| && s.loops[k].queue[i] == Destroy(c);
      assert FunctorOk(s, k, s.loops[k].queue[i]);
    }
  }

  /** Every entry that is not about `c` is the same in both states. */
  ghost predicate OthersKept(s: State, t: State, c: ConnId) {
    && s.loops.Keys == t.loops.Keys
    && (forall n | n in s.connections && s.connections[n] != c :: n in t.connections && t.connections[n] == s.connections[n])
    && (forall k, fd | k in s.loops && fd in s.loops[k].channels && s.loops[k].channels[fd] != c ::
          fd in t.loops[k].channels && t.loops[k].channels[fd] == s.loops[k].channels[fd])
    && (forall k, fd | k in s.loops && fd in s.loops[k].kernel && s.loops[k].kernel[fd].channel != c ::
          fd in t.loops[k].kernel && t.loops[k].kernel[fd] == s.loops[k].kernel[fd])
  }

  lemma OthersTrans(s: State, m: State, t: State, c: ConnId)
    requires OthersKept(s, m, c) && OthersKept(m, t, c)
    ensures OthersKept(s, t, c)
  {
  }

  lemma MaskWatches(s: State, c: ConnId, mask: Events)
    requires PollersOk(s) && c in s.conns && s.conns[c].open
    ensures var t := SetEvents(s, c, mask);
            && Known(t, c) && OnLoop(t, t.conns[c].loop, c) && t.ctlErrors == 0
            && (t.conns[c].fd in t.loops[t.conns[c].loop].kernel <==> !(s.conns[c].index == Added && mask == NO_EVENTS))
  {
    SetEventsMasks(s, c, mask);
  }

  lemma StatePollers(s: State, c: ConnId, state: C.StateE)
    requires PollersOk(s) && Known(s, c)
    ensures PollersOk(SetState(s, c, state)) && OthersKept(s, SetState(s, c, state), c)
  {
    PollersFrame(s, SetState(s, c, state));
  }

  lemma MaskIsLocal(s: State, c: ConnId, mask: Events)
    requires PollersOk(s) && c in s.conns && s.conns[c].open
    ensures OthersKept(s, SetEvents(s, c, mask), c)
  {
    SetEventsMasks(s, c, mask);
    OwnEntries(s, c);
    MaskedIsLocal(s, SetEvents(s, c, mask), c, mask);
  }

  /** No other channel sits under an open connection's descriptor. */
  ghost predicate OwnsEntries(s: State, c: ConnId)
    requires Known(s, c)
  {
    var conn := s.conns[c];
    var l := s.loops[conn.loop];
    && (conn.fd in l.channels ==> l.channels[conn.fd] == c)
    && (conn.fd in l.kernel ==> l.kernel[conn.fd].channel == c)
  }

  lemma OwnEntries(s: State, c: ConnId)
    requires PollersOk(s) && c in s.conns && s.conns[c].open
    ensures OwnsEntries(s, c)
  {
  }

  lemma MaskedIsLocal(s: State, t: State, c: ConnId, mask: Events)
    requires Known(s, c) && OwnsEntries(s, c) && Masked(s, t, c, mask)
    ensures OthersKept(s, t, c)
  {
  }

  lemma EstablishIsLocal(s: State, c: ConnId)
    requires PollersOk(s) && c in s.conns && s.conns[c].open
    ensures OthersKept(s, ConnectEstablished(s, c), c)
  {
    var m := SetState(s, c, C.KConnected);
    StatePollers(s, c, C.KConnected);
    MaskIsLocal(m, c, m.conns[c].events.(read := true));
    OthersTrans(s, m, ConnectEstablished(s, c), c);
  }

  lemma PushIsLocal(s: State, l: LoopId, f: Functor)
    requires l in s.loops
    ensures OthersKept(s, Push(s, l, f), f.conn)
  {
  }

  lemma AcceptedIsLocal(s: State, fd: Fd, l: LoopId)
    requires WellFormed(s) && MapOk(s)
    ensures OthersKept(s, Accepted(s, fd, l), s.nextConnId) && Name(s.nextConnId) !in s.connections
  {
    NamesDistinct();
  }

  lemma AcceptIsLocal(s: State, fd: Fd, l: LoopId)
    requires Inv(s) && Enabled(s, Accept(fd, l))
    ensures OthersKept(s, NewConnection(s, fd, l), s.nextConnId) && Name(s.nextConnId) !in s.connections
  {
    var t := Accepted(s, fd, l);
    AcceptedKeeps(s, fd, l);
    AcceptedIsLocal(s, fd, l);
    assert NewConnection(s, fd, l) == if l == BASE then ConnectEstablished(t, s.nextConnId) else Push(t, l, Establish(s.nextConnId));
    if l == BASE {
      EstablishIsLocal(t, s.nextConnId);
    } else {
      PushIsLocal(t, l, Establish(s.nextConnId));
    }
    OthersTrans(s, t, NewConnection(s, fd, l), s.nextConnId);
  }

  lemma MaskingEffect(s: State, l: LoopId, c: ConnId)
    requires Inv(s) && OnLoop(s, l, c)
    ensures var n := Masking(s, c);
            && n.conns[c].loop == l && n.conns[c].events == NO_EVENTS
            && n.conns[c].index == UpdateIndex(s.conns[c].index, NO_EVENTS)
            && n.loops[BASE].queue == s.loops[BASE].queue
  {
    assert s.conns[c].open;
    SetStateFrames(s, c, C.KDisconnected);
    SetEventsMasks(SetState(s, c, C.KDisconnected), c, NO_EVENTS);
  }

  /** `handleClose` affects its own connection only, which stays registered and held. */
  lemma CloseIsLocal(s: State, l: LoopId, c: ConnId)
    requires Inv(s) && OnLoop(s, l, c)
    ensures var t := HandleClose(s, l, c);
            && OthersKept(s, t, c) && OnLoop(t, l, c) && Anchored(t, c)
            && t.conns[c].open && t.conns[c].state == C.KDisconnected && t.conns[c].events == NO_EVENTS
  {
    var m, n := SetState(s, c, C.KDisconnected), Masking(s, c);
    CloseMasks(s, l, c);
    StatePollers(s, c, C.KDisconnected);
    MaskIsLocal(m, c, NO_EVENTS);
    OthersTrans(s, m, n, c);
    RemovalIsLocal(n, l, c);
    OthersTrans(s, n, HandleClose(s, l, c), c);
    RemovalKeeps(n, l, c);
  }

  lemma RemovalIsLocal(s: State, l: LoopId, c: ConnId)
    requires PollersOk(s) && MapOk(s) && Known(s, c)
    ensures var t := RemoveConnection(s, l, c); OthersKept(s, t, c) && t.conns == s.conns
  {
    if l == BASE {
      RemoveIsLocal(s, c);
    } else {
      PushIsLocal(s, BASE, RemoveConn(c));
    }
  }

  lemma UnregisterIsLocal(s: State, c: ConnId)
    requires PollersOk(s) && c in s.conns && s.conns[c].open
    ensures OthersKept(s, RemoveChannel(s, c), c)
  {
    RemoveChannelUnregisters(s, c);
  }

  /** `removeChannel` leaves the poller in order and the descriptor free. */
  lemma UnregisterKeepsPollers(s: State, c: ConnId)
    requires PollersOk(s) && c in s.conns && s.conns[c].open
    ensures var t := RemoveChannel(s, c); PollersOk(t) && Unregistered(s, t, c) && FdFree(t, s.conns[c].fd)
  {
    RemoveChannelUnregisters(s, c);
    UnregisteredPollers(s, RemoveChannel(s, c), c);
    EntriesOpen(RemoveChannel(s, c), s.conns[c].fd);
  }

  lemma DestroyIsLocal(s: State, c: ConnId)
    requires PollersOk(s) && c in s.conns && s.conns[c].open && s.conns[c].state == C.KDisconnected
    ensures OthersKept(s, ConnectDestroyed(s, c), c)
  {
    UnregisterIsLocal(s, c);
  }

  lemma RemoveIsLocal(s: State, c: ConnId)
    requires PollersOk(s) && MapOk(s) && Known(s, c)
    ensures OthersKept(s, RemoveConnectionInLoop(s, c), c)
  {
    NamesDistinct();
  }

  lemma PoppedEntries(s: State, t: State, l: LoopId, c: ConnId)
    requires l in s.loops && s.loops[l].queue != [] && s.loops[l].batch > 0 && OthersKept(Popped(s, l), t, c)
    ensures OthersKept(s, t, c)
  {
  }

  lemma FunctorIsLocal(s: State, l: LoopId)
    requires Inv(s) && Enabled(s, RunFunctor(l)) && (s.loops[l].queue[0].RemoveConn? || s.loops[l].queue[0].Destroy?)
    ensures OthersKept(s, Apply(s, RunFunctor(l)), s.loops[l].queue[0].conn)
  {
    var f := s.loops[l].queue[0];
    assert FunctorOk(s, l, s.loops[l].queue[0]);
    PoppedKeeps(s, l);
    if f.Destroy? {
      DestroyIsLocal(Popped(s, l), f.conn);
    } else {
      RemoveIsLocal(Popped(s, l), f.conn);
    }
    PoppedEntries(s, Apply(s, RunFunctor(l)), l, f.conn);
  }

  /** A removal or destruction, however often it is repeated, never touches the entry of
      another connection, in the server's map, in any poller's or in the kernel. */
  lemma RemovalsAreLocal(s: State, steps: seq<Step>, l: LoopId)
    requires Init(s) && Runnable(s, steps) && Enabled(Run(s, steps), RunFunctor(l))
    requires var f := Run(s, steps).loops[l].queue[0]; f.RemoveConn? || f.Destroy?
    ensures var r := Run(s, steps); OthersKept(r, Apply(r, RunFunctor(l)), r.loops[l].queue[0].conn)
  {
    InitOk(s);
    RunKeeps(s, steps);
    FunctorIsLocal(Run(s, steps), l);
  }

  lemma ReleaseIsLocal(s: State, c: ConnId)
    requires Inv(s) && Enabled(s, CloseSocket(c))
    ensures var t := Released(s, c); FdFree(t, s.conns[c].fd) && OthersKept(s, t, c)
  {
    UnheldUnregistered(s, c);
    EntriesOpen(s, s.conns[c].fd);
    ReleasedCloses(s, c);
  }

  ghost predicate Untouched(s: State, c: ConnId) {
    && (forall l, f | Queued(s, l, f) :: f.conn != c)
    && (forall l | l in s.loops :: s.loops[l].current != Some(c))
  }

  lemma UntouchedFree(s: State, c: ConnId)
    requires Inv(s) && c in s.conns && s.conns[c].state == C.KDisconnected && Untouched(s, c)
    ensures !Held(s, c) && s.conns[c].index == New
  {
    assert StateOk(s, c) && AnchorOk(s, c);
    UntouchedUnanchored(s, c);
  }

  lemma UntouchedUnanchored(s: State, c: ConnId)
    requires Known(s, c) && StateOk(s, c) && s.conns[c].state == C.KDisconnected && Untouched(s, c)
    ensures !Anchored(s, c) && !Held(s, c)
  {
    assert RemoveConn(c).conn == c && Destroy(c).conn == c && Establish(c).conn == c && Notify(c).conn == c;
  }

  /** Once a closed connection has no functor left and no handler running, nothing holds it any
      more, it is out of its poller, and its socket can be closed. */
  lemma FullyReleased(s: State, steps: seq<Step>, c: ConnId)
    requires Init(s) && Runnable(s, steps) && c in Run(s, steps).conns
    requires var r := Run(s, steps); r.conns[c].state == C.KDisconnected && r.conns[c].open && Untouched(r, c)
    ensures Enabled(Run(s, steps), CloseSocket(c)) && Run(s, steps).conns[c].index == New
  {
    InitOk(s);
    RunKeeps(s, steps);
    UntouchedFree(Run(s, steps), c);
  }

  /** The functor by which a close on loop `l` goes on: queued for the accept loop, or, on the
      accept loop itself, already carried out up to the destruction. */
  function Removal(l: LoopId, c: ConnId): Functor {
    if l == BASE then Destroy(c) else RemoveConn(c)
  }

  lemma CloseEffect(s: State, l: LoopId, c: ConnId)
    requires Inv(s) && OnLoop(s, l, c)
    ensures var t := HandleClose(s, l, c);
            && Inv(t) && OnLoop(t, l, c)
            && t.conns[c].events == NO_EVENTS && t.conns[c].index == UpdateIndex(s.conns[c].index, NO_EVENTS)
            && t.loops[BASE].queue == s.loops[BASE].queue + [Removal(l, c)]
  {
    CloseMasks(s, l, c);
    MaskingEffect(s, l, c);
    RemovalKeeps(Masking(s, c), l, c);
  }

  /** A second `handleClose`, on any loop, puts the channel back into the interest set with an
      empty mask and queues a second removal; the invariant holds all the same. */
  lemma SecondCloseReadds(s: State, l: LoopId, c: ConnId)
    requires Inv(s) && OnLoop(s, l, c) && s.conns[c].index == Added
    ensures var t := HandleClose(HandleClose(s, l, c), l, c);
            && Inv(t) && t.conns[c].index == Added && t.conns[c].events == NO_EVENTS
            && t.loops[BASE].queue == s.loops[BASE].queue + [Removal(l, c)] + [Removal(l, c)]
  {
    CloseEffect(s, l, c);
    CloseEffect(HandleClose(s, l, c), l, c);
  }
}

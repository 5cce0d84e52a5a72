/** The server's side of the protocol, as it updates its map, its counter, the channels and the
    loops' queues in place.  Every method computes the function of `TeardownSpec` it is named
    after and keeps the invariant of `TeardownProof`; `Drive` runs any schedule of steps on the
    object and leaves it safe. */
module TcpServers {
  import opened Basics
  import opened ChannelSpec
  import C = ConnectionSpec
  import Spec = TeardownSpec
  import opened TeardownSpec
  import opened TeardownProof

  class TcpServer {
    var connections: map<seq<byte>, ConnId>
    var nextConnId: nat
    var conns: map<ConnId, Conn>
    var loops: map<LoopId, Loop>
    var ctlErrors: nat

    ghost function View(): State
      reads this
    {
      State(loops, conns, connections, nextConnId, ctlErrors)
    }

    /** The connection is disconnected and asks for nothing, but its socket is still open. */
    predicate Down(id: ConnId)
      reads this`conns
    {
      id in conns && conns[id].open && conns[id].state == C.KDisconnected && conns[id].events == NO_EVENTS
    }

    constructor (loopIds: set<LoopId>)
      requires BASE in loopIds
      ensures Init(View()) && Inv(View()) && loops.Keys == loopIds
    {
      connections, conns, nextConnId, ctlErrors := map[], map[], 1, 0;
      loops := map l | l in loopIds :: IdleLoop();
      new;
      InitOk(View());
    }

    /** `newConnection`: the loop is any one of them, the descriptor any that is not open.  The
        new connection gets a name of its own and is up or about to be; nobody else notices. */
    method NewConnection(sockfd: Fd, ioLoop: LoopId)
      requires Inv(View()) && Enabled(View(), Accept(sockfd, ioLoop))
      modifies this
      ensures View() == Spec.NewConnection(old(View()), sockfd, ioLoop)
      ensures Inv(View()) && OthersKept(old(View()), View(), old(nextConnId))
      ensures Name(old(nextConnId)) !in old(connections) && InMap(View(), old(nextConnId))
      ensures if ioLoop == BASE then conns[old(nextConnId)].state == C.KConnected && conns[old(nextConnId)].index == Added
              else Queued(View(), ioLoop, Establish(old(nextConnId)))
    {
      AcceptKeeps(View(), sockfd, ioLoop);
      AcceptIsLocal(View(), sockfd, ioLoop);
      var id := Record(sockfd, ioLoop);
      if ioLoop == BASE {
        ConnectEstablished(id);
      } else {
        QueueInLoop(ioLoop, Establish(id));
      }
    }

    /** The new connection object and its entry in the map. */
    method Record(sockfd: Fd, ioLoop: LoopId) returns (id: ConnId)
      requires Inv(View()) && Enabled(View(), Accept(sockfd, ioLoop))
      modifies this`nextConnId, this`conns, this`connections
      ensures View() == Accepted(old(View()), sockfd, ioLoop) && id == old(nextConnId)
      ensures Establishable(View(), id) && InMap(View(), id)
    {
      AcceptedEstablishable(View(), sockfd, ioLoop);
      id := nextConnId;
      nextConnId := nextConnId + 1;
      conns := conns[id := Conn(sockfd, ioLoop, C.KConnecting, NO_EVENTS, New, true)];
      connections := connections[Name(id) := id];
    }

    /** `removeConnection`, the close callback, called on loop `l`: the connection's removal is
        under way, and no other entry is touched. */
    method RemoveConnection(l: LoopId, id: ConnId)
      requires Closing(View(), id)
      modifies this`connections, this`loops
      ensures View() == Spec.RemoveConnection(old(View()), l, id)
      ensures Inv(View()) && Anchored(View(), id) && OthersKept(old(View()), View(), id)
    {
      RemovalKeeps(View(), l, id);
      RemovalIsLocal(View(), l, id);
      if l == BASE {
        RemoveConnectionInLoop(id);
      } else {
        QueueInLoop(BASE, RemoveConn(id));
      }
    }

    /** However often it runs, the name is gone, the destruction is queued on the connection's
        own loop, and no other entry is touched. */
    method RemoveConnectionInLoop(id: ConnId)
      requires Closing(View(), id)
      modifies this`connections, this`loops
      ensures View() == Spec.RemoveConnectionInLoop(old(View()), id)
      ensures Inv(View()) && OthersKept(old(View()), View(), id)
      ensures Name(id) !in connections && Queued(View(), conns[id].loop, Destroy(id))
    {
      RemoveConnectionKeeps(View(), id);
      RemoveIsLocal(View(), id);
      connections := connections - {Name(id)};
      QueueInLoop(conns[id].loop, Destroy(id));
    }

    method QueueInLoop(l: LoopId, f: Functor)
      requires l in loops
      modifies this`loops
      ensures View() == Push(old(View()), l, f) && Queued(View(), l, f)
    {
      loops := loops[l := loops[l].(queue := loops[l].queue + [f])];
    }

    method ConnectEstablished(id: ConnId)
      requires Establishable(View(), id)
      modifies this`conns, this`loops, this`ctlErrors
      ensures View() == Spec.ConnectEstablished(old(View()), id)
      ensures Inv(View()) && OthersKept(old(View()), View(), id)
      ensures conns[id].state == C.KConnected && conns[id].index == Added && conns[id].events.read
    {
      EstablishKeeps(View(), id);
      EstablishIsLocal(View(), id);
      SetStateFrames(View(), id, C.KConnected);
      SetConnState(id, C.KConnected);
      UpdateChannel(id, conns[id].events.(read := true));
      assert StateOk(View(), id);
    }

    /** In whatever state the connection is, its channel leaves the poller, its descriptor is
        under no poller and in no interest set, and no other entry is touched. */
    method ConnectDestroyed(id: ConnId)
      requires PollersOk(View()) && id in conns && conns[id].open
      modifies this`conns, this`loops, this`ctlErrors
      ensures View() == Spec.ConnectDestroyed(old(View()), id)
      ensures PollersOk(View()) && OthersKept(old(View()), View(), id)
      ensures conns[id].index == New && FdFree(View(), conns[id].fd)
      ensures old(Destroyable(View(), id)) ==> Inv(View())
    {
      ghost var s := View();
      if Destroyable(s, id) {
        DestroyKeeps(s, id);
      }
      if conns[id].state == C.KConnected {
        SetConnState(id, C.KDisconnected);
        StatePollers(s, id, C.KDisconnected);
        ghost var m := View();
        UpdateChannel(id, NO_EVENTS);
        OthersTrans(s, m, View(), id);
      }
      ghost var n := View();
      RemoveChannel(id);
      OthersTrans(s, n, View(), id);
    }

    /** `TcpConnection::handleClose`, called on loop `l`, and as often as it happens: the
        connection is down but still registered, open and held, and only it is affected. */
    method HandleClose(l: LoopId, id: ConnId)
      requires Inv(View()) && OnLoop(View(), l, id)
      modifies this`conns, this`loops, this`ctlErrors, this`connections
      ensures View() == Spec.HandleClose(old(View()), l, id)
      ensures Inv(View()) && ctlErrors == 0 && OthersKept(old(View()), View(), id)
      ensures OnLoop(View(), l, id) && Anchored(View(), id) && Down(id)
    {
      HandleCloseKeeps(View(), l, id);
      CloseIsLocal(View(), l, id);
      TakeDown(l, id);
      RemoveConnection(l, id);
    }

    /** What `handleClose` does before it calls the close callback. */
    method TakeDown(l: LoopId, id: ConnId)
      requires Inv(View()) && OnLoop(View(), l, id)
      modifies this`conns, this`loops, this`ctlErrors
      ensures View() == Masking(old(View()), id) && Closing(View(), id)
    {
      CloseMasks(View(), l, id);
      StatePollers(View(), id, C.KDisconnected);
      SetConnState(id, C.KDisconnected);
      UpdateChannel(id, NO_EVENTS);
    }

    /** A mask change and the poller's `updateChannel`: poller, kernel and channel agree
        afterwards, so the epoll_ctl call was legal, and the channel is watched unless an empty
        mask took it out. */
    method UpdateChannel(id: ConnId, mask: Events)
      requires PollersOk(View()) && id in conns && conns[id].open
      modifies this`conns, this`loops, this`ctlErrors
      ensures View() == SetEvents(old(View()), id, mask)
      ensures PollersOk(View()) && ctlErrors == 0 && OthersKept(old(View()), View(), id)
      ensures OnLoop(View(), conns[id].loop, id)
      ensures conns[id].fd in loops[conns[id].loop].kernel <==> !(old(conns[id].index) == Added && mask == NO_EVENTS)
    {
      MaskKeepsPollers(View(), id, mask);
      MaskIsLocal(View(), id, mask);
      MaskWatches(View(), id, mask);
      ChangeMask(id, mask);
    }

    method ChangeMask(id: ConnId, mask: Events)
      requires Known(View(), id)
      modifies this`conns, this`loops, this`ctlErrors
      ensures View() == SetEvents(old(View()), id, mask)
    {
      var conn := conns[id];
      conns := conns[id := conn.(events := mask, index := UpdateIndex(conn.index, mask))];
      if conn.index == New {
        var loop := loops[conn.loop];
        loops := loops[conn.loop := loop.(channels := loop.channels[conn.fd := id])];
      }
      Update(id, UpdateOp(conn.index, mask));
    }

    /** `removeChannel`: nothing is left under the descriptor, anywhere. */
    method RemoveChannel(id: ConnId)
      requires PollersOk(View()) && id in conns && conns[id].open
      modifies this`conns, this`loops, this`ctlErrors
      ensures View() == Spec.RemoveChannel(old(View()), id)
      ensures PollersOk(View()) && ctlErrors == 0 && OthersKept(old(View()), View(), id)
      ensures conns[id].index == New && FdFree(View(), conns[id].fd)
    {
      UnregisterKeepsPollers(View(), id);
      UnregisterIsLocal(View(), id);
      var conn := conns[id];
      var loop := loops[conn.loop];
      loops := loops[conn.loop := loop.(channels := loop.channels - {conn.fd})];
      if conn.index == Added {
        Update(id, Del);
      }
      conns := conns[id := conn.(index := New)];
    }

    /** One epoll_ctl call. */
    method Update(id: ConnId, op: CtlOp)
      requires Known(View(), id)
      modifies this`loops, this`ctlErrors
      ensures View() == EpollCtl(old(View()), id, op)
    {
      var conn := conns[id];
      var loop := loops[conn.loop];
      if op.Add? == (conn.fd !in loop.kernel) {
        var kernel := if op.Del? then loop.kernel - {conn.fd} else loop.kernel[conn.fd := Interest(conn.events, id)];
        loops := loops[conn.loop := loop.(kernel := kernel)];
      } else {
        ctlErrors := ctlErrors + 1;
      }
    }

    // -------------------------------------------------------------- the loops

    /** One callback of the event being handled. */
    method RunCallback(l: LoopId, eof: bool)
      requires Inv(View()) && Enabled(View(), Step.RunCallback(l, eof))
      modifies this`conns, this`loops, this`ctlErrors, this`connections
      ensures View() == Apply(old(View()), Step.RunCallback(l, eof)) && Inv(View())
    {
      RunCallbackKeeps(View(), l, eof);
      var callback := PopCallback(l, eof);
      if Closes(callback, eof) {
        HandleClose(l, loops[l].current.value);
      }
    }

    method PopCallback(l: LoopId, ghost eof: bool) returns (callback: Callback)
      requires Inv(View()) && Enabled(View(), Step.RunCallback(l, eof))
      modifies this`loops
      ensures var loop := old(loops[l]);
              View() == PutLoop(old(View()), l, loop.(todo := loop.todo[1..])) && callback == loop.todo[0]
      ensures Inv(View()) && OnLoop(View(), l, old(loops[l].current.value))
    {
      var loop := loops[l];
      LoopMoves(View(), l, loop.(todo := loop.todo[1..]));
      callback := loop.todo[0];
      loops := loops[l := loop.(todo := loop.todo[1..])];
    }

    /** The first functor of the batch. */
    method RunFunctor(l: LoopId)
      requires Inv(View()) && Enabled(View(), Step.RunFunctor(l))
      modifies this`conns, this`loops, this`ctlErrors, this`connections
      ensures View() == Apply(old(View()), Step.RunFunctor(l)) && Inv(View())
    {
      RunFunctorKeeps(View(), l);
      PoppedReady(View(), l);
      var f := PopFunctor(l);
      Execute(f);
    }

    method PopFunctor(l: LoopId) returns (f: Functor)
      requires l in loops && loops[l].queue != [] && loops[l].batch > 0
      modifies this`loops
      ensures View() == Popped(old(View()), l) && f == old(loops[l].queue[0])
    {
      var loop := loops[l];
      f := loop.queue[0];
      loops := loops[l := loop.(queue := loop.queue[1..], batch := loop.batch - 1)];
    }

    method Execute(f: Functor)
      requires Ready(View(), f)
      modifies this`conns, this`loops, this`ctlErrors, this`connections
      ensures View() == Spec.Execute(old(View()), f)
    {
      match f
      case Establish(id) => ConnectEstablished(id);
      case RemoveConn(id) => RemoveConnectionInLoop(id);
      case Destroy(id) => ConnectDestroyed(id);
      case _ =>
    }

    /** `epoll_wait` returns and `fillActiveChannels` hands out the channels. */
    method Poll(l: LoopId, reported: seq<(Fd, Revents)>)
      requires Inv(View()) && Enabled(View(), Step.Poll(l, reported))
      modifies this`loops
      ensures View() == Apply(old(View()), Step.Poll(l, reported)) && Inv(View())
    {
      PollKeeps(View(), l, reported);
      var loop := loops[l];
      var active := seq(|reported|, i requires 0 <= i < |reported| => Event(loop.kernel[reported[i].0].channel, reported[i].1));
      loops := loops[l := loop.(phase := Handling, active := active)];
    }

    /** The next active channel: its handler runs only if its connection is still there. */
    method BeginEvent(l: LoopId)
      requires Inv(View()) && Enabled(View(), Step.BeginEvent(l))
      modifies this`loops
      ensures View() == Apply(old(View()), Step.BeginEvent(l)) && Inv(View())
    {
      ghost var s := View();
      BeginEventKeeps(s, l);
      var loop := loops[l];
      var e := loop.active[0];
      var rest := loop.(active := loop.active[1..]);
      if conns[e.conn].open {
        rest := rest.(current := Some(e.conn), todo := Dispatch(e.revents));
      }
      loops := loops[l := rest];
      assert View() == Apply(s, Step.BeginEvent(l));
    }

    method EndEvent(l: LoopId)
      requires Inv(View()) && Enabled(View(), Step.EndEvent(l))
      modifies this`loops
      ensures View() == Apply(old(View()), Step.EndEvent(l)) && Inv(View())
    {
      EndEventKeeps(View(), l);
      loops := loops[l := loops[l].(current := None)];
    }

    /** The swap at the start of `doPendingFunctors`. */
    method TakeFunctors(l: LoopId)
      requires Inv(View()) && Enabled(View(), Step.TakeFunctors(l))
      modifies this`loops
      ensures View() == Apply(old(View()), Step.TakeFunctors(l)) && Inv(View())
    {
      TakeFunctorsKeeps(View(), l);
      loops := loops[l := loops[l].(phase := Functors, batch := |loops[l].queue|)];
    }

    method EndFunctors(l: LoopId)
      requires Inv(View()) && Enabled(View(), Step.EndFunctors(l))
      modifies this`loops
      ensures View() == Apply(old(View()), Step.EndFunctors(l)) && Inv(View())
    {
      EndFunctorsKeeps(View(), l);
      loops := loops[l := loops[l].(phase := Polling)];
    }

    /** `shutdown`, by user code on a connection that is up. */
    method UserShutdown(id: ConnId)
      requires Inv(View()) && Enabled(View(), Step.UserShutdown(id))
      modifies this`conns, this`loops
      ensures View() == Apply(old(View()), Step.UserShutdown(id)) && Inv(View())
    {
      UserShutdownKeeps(View(), id);
      SetConnState(id, C.KDisconnecting);
      QueueInLoop(conns[id].loop, Shutdown(id));
    }

    method SetConnState(id: ConnId, state: C.StateE)
      requires Known(View(), id)
      modifies this`conns
      ensures View() == SetState(old(View()), id, state)
    {
      conns := conns[id := conns[id].(state := state)];
    }

    /** Writing interest switched by the send path. */
    method UserWriting(id: ConnId, on: bool)
      requires Inv(View()) && Enabled(View(), Step.UserWriting(id, on))
      modifies this`conns, this`loops, this`ctlErrors
      ensures View() == Apply(old(View()), Step.UserWriting(id, on)) && Inv(View())
    {
      UserWritingKeeps(View(), id, on);
      assert StateOk(View(), id);
      UpdateChannel(id, conns[id].events.(write := on));
    }

    /** A write-complete or high-water functor queued by the send path. */
    method UserNotify(id: ConnId)
      requires Inv(View()) && Enabled(View(), Step.UserNotify(id))
      modifies this`loops
      ensures View() == Apply(old(View()), Step.UserNotify(id)) && Inv(View())
    {
      UserNotifyKeeps(View(), id);
      QueueInLoop(conns[id].loop, Notify(id));
    }

    /** The last reference is gone: the socket is closed, and the kernel forgets it. */
    method CloseSocket(id: ConnId)
      requires Inv(View()) && Enabled(View(), Step.CloseSocket(id))
      modifies this`conns, this`loops
      ensures View() == Apply(old(View()), Step.CloseSocket(id)) && Inv(View())
      ensures FdFree(View(), conns[id].fd) && OthersKept(old(View()), View(), id)
    {
      CloseSocketKeeps(View(), id);
      ReleaseIsLocal(View(), id);
      DropSocket(id);
    }

    method DropSocket(id: ConnId)
      requires Known(View(), id)
      modifies this`conns, this`loops
      ensures View() == Released(old(View()), id)
    {
      var conn := conns[id];
      var loop := loops[conn.loop];
      loops := loops[conn.loop := loop.(kernel := loop.kernel - {conn.fd})];
      conns := conns[id := conn.(open := false)];
    }

    /** Any one step of the protocol. */
    method Perform(step: Step)
      requires Inv(View()) && Enabled(View(), step)
      modifies this
      ensures View() == Apply(old(View()), step) && Inv(View())
    {
      match step
      case Accept(fd, l) => NewConnection(fd, l);
      case Poll(l, reported) => Poll(l, reported);
      case BeginEvent(l) => BeginEvent(l);
      case RunCallback(l, eof) => RunCallback(l, eof);
      case EndEvent(l) => EndEvent(l);
      case TakeFunctors(l) => TakeFunctors(l);
      case RunFunctor(l) => RunFunctor(l);
      case EndFunctors(l) => EndFunctors(l);
      case UserShutdown(id) => UserShutdown(id);
      case UserWriting(id, on) => UserWriting(id, on);
      case UserNotify(id) => UserNotify(id);
      case CloseSocket(id) => CloseSocket(id);
    }

    /** Any schedule of the loops, the kernel and the user leaves the server safe. */
    method Drive(steps: seq<Step>)
      requires Inv(View()) && Runnable(View(), steps)
      modifies this
      ensures View() == Run(old(View()), steps) && Safe(View())
    {
      ghost var s := View();
      var i := 0;
      while i < |steps|
        invariant 0 <= i <= |steps| && Inv(View())
        invariant Runnable(View(), steps[i..]) && Run(View(), steps[i..]) == Run(s, steps)
      {
        assert steps[i..][1..] == steps[i + 1..];
        Perform(steps[i]);
        i := i + 1;
      }
      InvSafe(View());
    }
  }
}

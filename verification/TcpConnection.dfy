/** The connection object: two in-place buffers, the state, the channel's event mask and the
    functors queued on the loop, updated step by step.  Every method computes the function of
    `ConnectionSpec` it is named after. */
module TcpConnections {
  import opened Basics
  import opened ChannelSpec
  import opened BufferSpec
  import opened NetBuffer
  import opened Spec = ConnectionSpec

  class TcpConnection {
    const cfg: Config
    var state: StateE
    /** The mask of the channel; `Pollers.Channel` keeps it in step with the poller. */
    var events: Events
    const inputBuffer: Buffer
    const outputBuffer: Buffer
    /** Functors queued on the loop and not yet run. */
    var queue: seq<Functor>
    // the socket
    var wire: seq<byte>
    var shut: bool
    // history
    ghost var closeCalls: nat
    ghost var notified: seq<nat>
    ghost var received: seq<byte>
    ghost var accepted: seq<byte>

    ghost predicate Valid()
      reads this, inputBuffer, outputBuffer
    {
      && inputBuffer.Valid() && outputBuffer.Valid()
      && inputBuffer != outputBuffer && inputBuffer.storage != outputBuffer.storage
    }

    ghost function View(): Conn
      reads this, inputBuffer, outputBuffer, inputBuffer.storage, outputBuffer.storage
      requires Valid()
    {
      Conn(state, events, inputBuffer.View(), outputBuffer.View(), queue, wire, shut, closeCalls, notified,
           received, accepted)
    }

    constructor (cfg: Config, initialSize: nat)
      ensures Valid() && this.cfg == cfg && View() == Spec.New(initialSize)
      ensures fresh(inputBuffer) && fresh(outputBuffer) && fresh(inputBuffer.storage) && fresh(outputBuffer.storage)
    {
      this.cfg := cfg;
      state, events := KConnecting, NO_EVENTS;
      inputBuffer := new Buffer(initialSize);
      outputBuffer := new Buffer(initialSize);
      queue, wire, shut := [], [], false;
      closeCalls, notified, received, accepted := 0, [], [], [];
    }

    method ConnectEstablished()
      requires Valid()
      modifies this`state, this`events
      ensures Valid() && View() == Spec.ConnectEstablished(old(View()))
    {
      state := KConnected;
      events := events.(read := true);
    }

    method ConnectDestroyed()
      requires Valid()
      modifies this`state, this`events
      ensures Valid() && View() == Spec.ConnectDestroyed(old(View()))
    {
      if state == KConnected {
        state := KDisconnected;
        events := NO_EVENTS;
      }
    }

    method HandleClose()
      requires Valid()
      modifies this`state, this`events, this`closeCalls
      ensures Valid() && View() == Spec.HandleClose(old(View()))
    {
      state := KDisconnected;
      events := NO_EVENTS;
      closeCalls := closeCalls + 1;
    }

    method HandleError()
      requires Valid()
      modifies this`state, this`events, this`closeCalls
      ensures Valid() && View() == Spec.HandleClose(old(View()))
    {
      HandleClose();
    }

    method HandleRead(r: ReadResult, w: WriteResult)
      requires Valid() && Enabled(cfg, View(), Read(r, w))
      modifies this, inputBuffer, inputBuffer.storage, outputBuffer, outputBuffer.storage
      ensures Valid() && View() == Spec.HandleRead(cfg, old(View()), r, w)
      ensures inputBuffer.storage == old(inputBuffer.storage) || fresh(inputBuffer.storage)
      ensures outputBuffer.storage == old(outputBuffer.storage) || fresh(outputBuffer.storage)
    {
      if r.ReadFailed? {
        HandleError();
      } else {
        ReadInput(r.bytes);
        if r.bytes == [] {
          HandleClose();
        } else {
          OnMessage(w);
        }
      }
    }

    method ReadInput(bytes: seq<byte>)
      requires Valid() && |bytes| <= ReadCapacity(View().input)
      modifies this`received, inputBuffer, inputBuffer.storage
      ensures Valid() && View() == AfterRead(cfg, old(View()), bytes)
      ensures inputBuffer.storage == old(inputBuffer.storage) || fresh(inputBuffer.storage)
    {
      received := received + bytes;
      if cfg.io.Repaired? {
        inputBuffer.ReadFdRepaired(bytes);
      } else {
        inputBuffer.ReadFd(bytes);
      }
    }

    /** The echo application's message callback. */
    method OnMessage(w: WriteResult)
      requires Valid() && Fits(w, |Readable(View().input)|)
      modifies this, inputBuffer`reader, inputBuffer`writer, outputBuffer, outputBuffer.storage
      ensures Valid() && View() == Spec.OnMessage(cfg, old(View()), w)
      ensures outputBuffer.storage == old(outputBuffer.storage) || fresh(outputBuffer.storage)
    {
      var msg := inputBuffer.RetrieveAllAsString();
      Send(msg, w);
    }

    method Send(buf: seq<byte>, w: WriteResult)
      requires Valid() && Fits(w, |buf|)
      modifies this, outputBuffer, outputBuffer.storage
      ensures Valid() && View() == Spec.Send(cfg, old(View()), buf, w)
      ensures outputBuffer.storage == old(outputBuffer.storage) || fresh(outputBuffer.storage)
    {
      if state == KConnected {
        accepted := accepted + buf;
        SendInLoop(buf, w);
      }
    }

    /** `sendInLoop`, for a caller on the loop thread. */
    method SendInLoop(data: seq<byte>, w: WriteResult)
      requires Valid() && Fits(w, |data|)
      modifies this, outputBuffer, outputBuffer.storage
      ensures Valid() && View() == Spec.SendInLoop(cfg, old(View()), data, w)
      ensures outputBuffer.storage == old(outputBuffer.storage) || fresh(outputBuffer.storage)
    {
      if state == KDisconnected && cfg.giveUp.Repaired? {
        return;
      }
      if !events.write && outputBuffer.writer == outputBuffer.reader {
        var nwrote, faultError := DirectWrite(data, w);
        assert Direct(old(View()));
        if nwrote == 0 {
          assert data[nwrote..] == data && (w.Wrote? ==> data[..0] == []);
        }
        if !faultError && nwrote < |data| {
          BufferRest(data[nwrote..]);
        }
      } else if |data| > 0 {
        BufferRest(data);
      }
    }

    /** The write attempted before anything is buffered. */
    method DirectWrite(data: seq<byte>, w: WriteResult) returns (nwrote: nat, faultError: bool)
      requires Valid() && Fits(w, |data|)
      modifies this`wire, this`queue
      ensures Valid() && nwrote == (if w.Wrote? then w.n else 0) && faultError == IsFatal(w)
      ensures w.WriteFailed? ==> View() == old(View())
      ensures w.Wrote? ==> View() == old(View()).(
                wire := old(wire) + data[..w.n],
                queue := if w.n == |data| && cfg.writeComplete then old(queue) + [Inert] else old(queue))
    {
      nwrote, faultError := 0, false;
      if w.Wrote? {
        nwrote := w.n;
        wire := wire + data[..nwrote];
        if nwrote == |data| && cfg.writeComplete {
          queue := queue + [Inert];
        }
      } else {
        faultError := w.errno == EPipe || w.errno == EConnReset;
      }
    }

    /** The tail of `sendInLoop`: the mark is checked on the length before the append. */
    method BufferRest(rest: seq<byte>)
      requires Valid()
      modifies this`queue, this`events, outputBuffer, outputBuffer.storage
      ensures Valid() && View() == Enqueue(cfg, old(View()), rest)
      ensures outputBuffer.storage == old(outputBuffer.storage) || fresh(outputBuffer.storage)
    {
      CheckMark(|rest|);
      AppendOutput(rest);
      if !events.write {
        events := events.(write := true);
      }
    }

    method CheckMark(len: nat)
      requires Valid()
      modifies this`queue
      ensures Valid()
      ensures var oldLen := |Pending(old(View()))|;
              View() == if CrossesMark(cfg, oldLen, oldLen + len)
                        then old(View()).(queue := old(queue) + [HighWater(oldLen + len)])
                        else old(View())
    {
      var oldLen := outputBuffer.writer - outputBuffer.reader;
      if cfg.highWaterMark.Some? && oldLen + len >= cfg.highWaterMark.value && oldLen < cfg.highWaterMark.value {
        queue := queue + [HighWater(oldLen + len)];
      }
    }

    method AppendOutput(rest: seq<byte>)
      requires Valid()
      modifies outputBuffer, outputBuffer.storage
      ensures Valid() && View() == old(View()).(output := BufferSpec.Append(old(View()).output, rest))
      ensures outputBuffer.storage == old(outputBuffer.storage) || fresh(outputBuffer.storage)
    {
      outputBuffer.Append(rest);
    }

    method Shutdown()
      requires Valid()
      modifies this`state, this`queue
      ensures Valid() && View() == Spec.Shutdown(old(View()))
    {
      if state == KConnected {
        state := KDisconnecting;
        queue := queue + [Functor.ShutdownInLoop];
      }
    }

    method ShutdownInLoop()
      requires Valid()
      modifies this`shut
      ensures Valid() && View() == DoShutdownInLoop(old(View()))
    {
      if !events.write {
        shut := true;
      }
    }

    /** The loop runs the connection's first functor. */
    method RunFunctor()
      requires Valid() && queue != []
      modifies this`queue, this`shut, this`notified
      ensures Valid() && View() == Spec.RunFunctor(old(View()))
    {
      var f := queue[0];
      queue := queue[1..];
      match f
      case ShutdownInLoop => ShutdownInLoop();
      case HighWater(len) => notified := notified + [len];
      case _ =>
    }

    method HandleWrite(w: WriteResult)
      requires Valid() && Fits(w, |WriteOffer(cfg, View())|)
      modifies this, outputBuffer`reader, outputBuffer`writer
      ensures Valid() && View() == Spec.HandleWrite(cfg, old(View()), w)
    {
      if events.write && w.Wrote? && w.n > 0 {
        WriteOutput(w.n);
        if outputBuffer.writer == outputBuffer.reader {
          events := events.(write := false);
          if cfg.writeComplete {
            queue := queue + [WriteComplete];
          }
          if state == KDisconnecting {
            ShutdownInLoop();
          }
        }
      }
    }

    /** The write to the socket and the retrieval of what it took. */
    method WriteOutput(n: nat)
      requires Valid() && n <= |WriteOffer(cfg, View())|
      modifies this`wire, outputBuffer`reader, outputBuffer`writer
      ensures Valid()
      ensures View() == old(View()).(wire := old(wire) + old(WriteOffer(cfg, View()))[..n],
                                     output := BufferSpec.Retrieve(old(View()).output, n))
    {
      var sent;
      if cfg.io.Repaired? {
        sent := outputBuffer.WriteFdRepaired(n);
      } else {
        sent := outputBuffer.WriteFd(n);
      }
      wire := wire + sent;
      outputBuffer.Retrieve(n);
    }

    /** Any one step of the connection's life. */
    method Perform(step: Step)
      requires Valid() && Inv(View()) && state != KConnecting && Enabled(cfg, View(), step)
      modifies this, inputBuffer, inputBuffer.storage, outputBuffer, outputBuffer.storage
      ensures Valid() && View() == Spec.Apply(cfg, old(View()), step)
      ensures Inv(View()) && state != KConnecting
      ensures inputBuffer.storage == old(inputBuffer.storage) || fresh(inputBuffer.storage)
      ensures outputBuffer.storage == old(outputBuffer.storage) || fresh(outputBuffer.storage)
    {
      StepKeeps(cfg, View(), step);
      match step
      case Read(r, w) => HandleRead(r, w);
      case WriteReady(w) => HandleWrite(w);
      case CloseEvent => HandleClose();
      case ErrorEvent => HandleError();
      case UserSend(data, w) => Send(data, w);
      case UserShutdown => Shutdown();
      case NextFunctor => RunFunctor();
      case Destroy => ConnectDestroyed();
    }

    /** Any sequence of steps on an established connection ends in step with the waiting bytes,
        with nothing lost but by an unfaithful write, and with every message echoed but for
        lossy reads. */
    method Drive(steps: seq<Step>)
      requires Valid() && Trails(View()) && Conserved(View()) && Echoing(View()) && accepted == received
      requires Inv(View()) && state == KConnected && Runnable(cfg, View(), steps)
      modifies this, inputBuffer, inputBuffer.storage, outputBuffer, outputBuffer.storage
      ensures Valid() && View() == Spec.Run(cfg, old(View()), steps) && Inv(View())
      ensures state == KConnected || state == KDisconnecting ==> (events.write <==> Pending(View()) != [])
      ensures state == KDisconnecting ==> shut || Functor.ShutdownInLoop in queue || events.write
      ensures shut && state != KDisconnected ==> state == KDisconnecting && Pending(View()) == []
      ensures AllBenign(steps) ==> (accepted == wire + Pending(View()) <==> AllFaithful(cfg, old(View()), steps))
      ensures (forall i :: 0 <= i < |steps| ==> !steps[i].UserSend?) && state == KConnected ==>
                (accepted == received <==> AllReadsWhole(cfg, old(View()), steps))
    {
      ghost var c := View();
      if AllBenign(steps) {
        RunConservesFrom(cfg, c, steps);
      }
      if forall i :: 0 <= i < |steps| ==> !steps[i].UserSend? {
        EchoRun(cfg, c, steps);
      }
      var i := 0;
      while i < |steps|
        invariant 0 <= i <= |steps| && Valid() && Inv(View()) && state != KConnecting
        invariant Runnable(cfg, View(), steps[i..]) && Spec.Run(cfg, View(), steps[i..]) == Spec.Run(cfg, c, steps)
        invariant inputBuffer.storage == old(inputBuffer.storage) || fresh(inputBuffer.storage)
        invariant outputBuffer.storage == old(outputBuffer.storage) || fresh(outputBuffer.storage)
        modifies this, inputBuffer, inputBuffer.storage, outputBuffer, outputBuffer.storage
      {
        assert steps[i..][1..] == steps[i + 1..];
        Perform(steps[i]);
        i := i + 1;
      }
    }
  }
}

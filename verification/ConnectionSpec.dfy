/** One TCP connection on its own loop thread (src/TcpConnection.cc, `onMessage` of src/main.cc).

    The outcome of every system call is a parameter of the step that makes it.  `wire` is what
    the socket has taken, `received` and `accepted` are the histories of the bytes read and of
    the bytes handed to `send` while it was accepting. */
module ConnectionSpec {
  import opened Basics
  import opened BufferSpec
  import opened ChannelSpec

  datatype StateE = KConnecting | KConnected | KDisconnecting | KDisconnected

  datatype Errno = EWouldBlock | EPipe | EConnReset | EOther

  datatype WriteResult = Wrote(n: nat) | WriteFailed(errno: Errno)

  datatype ReadResult = Received(bytes: seq<byte>) | ReadFailed

  /** What a connection queues on its loop.  `Inert` is the write-complete functor of
      `sendInLoop`, which binds the data member and so calls nothing. */
  datatype Functor = ShutdownInLoop | WriteComplete | HighWater(len: nat) | Inert

  /** `io`: the buffer reads and writes; `giveUp`: the missing return of `sendInLoop`. */
  datatype Config = Config(io: Variant, giveUp: Variant, highWaterMark: Option<nat>, writeComplete: bool)

  datatype Conn = Conn(
    state: StateE,
    events: Events,
    input: Buf,
    output: Buf,
    queue: seq<Functor>,
    wire: seq<byte>,
    shut: bool,
    closeCalls: nat,
    notified: seq<nat>,         // the lengths the high-water callback was called with
    received: seq<byte>,
    accepted: seq<byte>)

  function Pending(c: Conn): seq<byte> {
    Readable(c.output)
  }

  predicate IsFatal(w: WriteResult) {
    w.WriteFailed? && (w.errno.EPipe? || w.errno.EConnReset?)
  }

  predicate Fits(w: WriteResult, len: nat) {
    w.Wrote? ==> w.n <= len
  }

  function New(initialSize: nat): Conn {
    Conn(KConnecting, NO_EVENTS, EmptyBuf(initialSize), EmptyBuf(initialSize), [], [], false, 0, [], [], [])
  }

  function ConnectEstablished(c: Conn): Conn {
    c.(state := KConnected, events := c.events.(read := true))
  }

  function ConnectDestroyed(c: Conn): Conn {
    if c.state.KConnected? then c.(state := KDisconnected, events := NO_EVENTS) else c
  }

  function HandleClose(c: Conn): Conn {
    c.(state := KDisconnected, events := NO_EVENTS, closeCalls := c.closeCalls + 1)
  }

  /** The direct write is tried only when nothing is waiting to be written. */
  predicate Direct(c: Conn) {
    !c.events.write && Pending(c) == []
  }

  predicate CrossesMark(cfg: Config, oldLen: nat, newLen: nat) {
    cfg.highWaterMark.Some? && oldLen < cfg.highWaterMark.value <= newLen
  }

  /** The part of `sendInLoop` that buffers what the socket did not take. */
  function Enqueue(cfg: Config, c: Conn, rest: seq<byte>): Conn {
    var oldLen := |Pending(c)|;
    var c1 := if CrossesMark(cfg, oldLen, oldLen + |rest|)
              then c.(queue := c.queue + [HighWater(oldLen + |rest|)]) else c;
    c1.(output := Append(c.output, rest), events := c.events.(write := true))
  }

  function SendInLoop(cfg: Config, c: Conn, data: seq<byte>, w: WriteResult): Conn
    requires Fits(w, |data|)
  {
    if c.state.KDisconnected? && cfg.giveUp.Repaired? then c
    else if !Direct(c) then if data == [] then c else Enqueue(cfg, c, data)
    else match w
      case Wrote(n) =>
        var c1 := c.(wire := c.wire + data[..n]);
        if n == |data| then if cfg.writeComplete then c1.(queue := c1.queue + [Inert]) else c1
        else Enqueue(cfg, c1, data[n..])
      case WriteFailed(_) =>
        if IsFatal(w) || data == [] then c else Enqueue(cfg, c, data)
  }

  function Send(cfg: Config, c: Conn, data: seq<byte>, w: WriteResult): Conn
    requires Fits(w, |data|)
  {
    if c.state.KConnected? then SendInLoop(cfg, c.(accepted := c.accepted + data), data, w) else c
  }

  function DoShutdownInLoop(c: Conn): Conn {
    if c.events.write then c else c.(shut := true)
  }

  function Shutdown(c: Conn): Conn {
    if c.state.KConnected? then c.(state := KDisconnecting, queue := c.queue + [ShutdownInLoop]) else c
  }

  /** The bytes `handleWrite` offers to the socket. */
  function WriteOffer(cfg: Config, c: Conn): seq<byte> {
    if cfg.io.Repaired? then Pending(c) else WriteSpan(c.output)
  }

  /** After a write that took something: the data is consumed, and once it is all gone writing
      is switched off and a waiting shutdown is carried out. */
  function HandleWrite(cfg: Config, c: Conn, w: WriteResult): Conn
    requires Fits(w, |WriteOffer(cfg, c)|)
  {
    if !c.events.write || w.WriteFailed? || w.n == 0 then c
    else
      var c1 := c.(wire := c.wire + WriteOffer(cfg, c)[..w.n], output := Retrieve(c.output, w.n));
      if Pending(c1) != [] then c1 else
        var c2 := c1.(events := c1.events.(write := false));
        var c3 := if cfg.writeComplete then c2.(queue := c2.queue + [WriteComplete]) else c2;
        if c3.state.KDisconnecting? then DoShutdownInLoop(c3) else c3
  }

  /** `EchoServer::onMessage`: everything readable is taken and sent back. */
  function OnMessage(cfg: Config, c: Conn, w: WriteResult): Conn
    requires Fits(w, |Readable(c.input)|)
  {
    var msg := Readable(c.input);
    Send(cfg, c.(input := Retrieve(c.input, |msg|)), msg, w)
  }

  function AfterRead(cfg: Config, c: Conn, bytes: seq<byte>): Conn {
    c.(input := ReadInto(cfg.io, c.input, bytes), received := c.received + bytes)
  }

  /** `handleRead` with the echo callback; an error and an end of stream both close. */
  function HandleRead(cfg: Config, c: Conn, r: ReadResult, w: WriteResult): Conn
    requires r.Received? ==> Fits(w, |Readable(AfterRead(cfg, c, r.bytes).input)|)
  {
    match r
    case Received(bytes) =>
      if bytes == [] then HandleClose(AfterRead(cfg, c, bytes)) else OnMessage(cfg, AfterRead(cfg, c, bytes), w)
    case ReadFailed => HandleClose(c)
  }

  /** The head of the loop's queue runs. */
  function RunFunctor(c: Conn): Conn
    requires c.queue != []
  {
    var rest := c.(queue := c.queue[1..]);
    match c.queue[0]
    case ShutdownInLoop => DoShutdownInLoop(rest)
    case HighWater(len) => rest.(notified := rest.notified + [len])
    case _ => rest
  }

  // ---------------------------------------------------------------- runs

  datatype Step =
    | Read(r: ReadResult, w: WriteResult)
    | WriteReady(w: WriteResult)
    | CloseEvent
    | ErrorEvent
    | UserSend(data: seq<byte>, w: WriteResult)
    | UserShutdown
    | NextFunctor
    | Destroy

  predicate Enabled(cfg: Config, c: Conn, step: Step) {
    match step
    case Read(r, w) =>
      r.Received? ==> |r.bytes| <= ReadCapacity(c.input) && Fits(w, |Readable(AfterRead(cfg, c, r.bytes).input)|)
    case WriteReady(w) => Fits(w, |WriteOffer(cfg, c)|)
    case UserSend(data, w) => Fits(w, |data|)
    case NextFunctor => c.queue != []
    case _ => true
  }

  function Apply(cfg: Config, c: Conn, step: Step): Conn
    requires Enabled(cfg, c, step)
  {
    match step
    case Read(r, w) => HandleRead(cfg, c, r, w)
    case WriteReady(w) => HandleWrite(cfg, c, w)
    case CloseEvent => HandleClose(c)
    case ErrorEvent => HandleClose(c)
    case UserSend(data, w) => Send(cfg, c, data, w)
    case UserShutdown => Shutdown(c)
    case NextFunctor => RunFunctor(c)
    case Destroy => ConnectDestroyed(c)
  }

  predicate Runnable(cfg: Config, c: Conn, steps: seq<Step>)
    decreases steps
  {
    steps == [] || (Enabled(cfg, c, steps[0]) && Runnable(cfg, Apply(cfg, c, steps[0]), steps[1..]))
  }

  function Run(cfg: Config, c: Conn, steps: seq<Step>): Conn
    requires Runnable(cfg, c, steps)
    decreases steps
  {
    if steps == [] then c else Run(cfg, Apply(cfg, c, steps[0]), steps[1..])
  }

  /** No write of this step reports EPIPE or ECONNRESET. */
  predicate Benign(step: Step) {
    match step
    case Read(_, w) => !IsFatal(w)
    case UserSend(_, w) => !IsFatal(w)
    case _ => true
  }

  predicate AllBenign(steps: seq<Step>) {
    forall i :: 0 <= i < |steps| ==> Benign(steps[i])
  }

  // ---------------------------------------------------------------- what each operation keeps

  /** Writing interest follows the output buffer, and a shutdown is never forgotten. */
  ghost predicate Inv(c: Conn) {
    && (c.state.KConnected? || c.state.KDisconnecting? ==> c.events.read && (c.events.write <==> Pending(c) != []))
    && (c.state.KDisconnected? ==> !c.events.read && !c.events.write)
    && (c.shut ==> !c.state.KConnected? && !c.state.KConnecting?)
    && (c.shut && c.state.KDisconnecting? ==> Pending(c) == [])
    && (ShutdownInLoop in c.queue ==> c.state.KDisconnecting? || c.state.KDisconnected?)
    && (c.state.KDisconnecting? ==> c.shut || ShutdownInLoop in c.queue || c.events.write)
  }

  lemma EnqueueKeeps(cfg: Config, c: Conn, rest: seq<byte>)
    requires rest != []
    ensures Pending(Enqueue(cfg, c, rest)) == Pending(c) + rest
  {
    AppendEnqueues(c.output, rest);
  }

  lemma SendInLoopKeepsInv(cfg: Config, c: Conn, data: seq<byte>, w: WriteResult)
    requires Fits(w, |data|) && Inv(c) && c.state.KConnected?
    ensures Inv(SendInLoop(cfg, c, data, w))
  {
    if data != [] {
      EnqueueKeeps(cfg, c, data);
    }
    if w.Wrote? && w.n < |data| {
      EnqueueKeeps(cfg, c.(wire := c.wire + data[..w.n]), data[w.n..]);
    }
  }

  lemma SendKeeps(cfg: Config, c: Conn, data: seq<byte>, w: WriteResult)
    requires Fits(w, |data|) && Inv(c)
    ensures Inv(Send(cfg, c, data, w))
    ensures var s := Send(cfg, c, data, w);
            && s.state == c.state && s.input == c.input && s.received == c.received
            && s.accepted == c.accepted + if c.state.KConnected? then data else []
  {
    if c.state.KConnected? {
      SendInLoopKeepsInv(cfg, c.(accepted := c.accepted + data), data, w);
    }
  }

  /** The write-complete callback is queued exactly when a write empties the output buffer. */
  lemma DrainNotifies(cfg: Config, c: Conn, w: WriteResult)
    requires Fits(w, |WriteOffer(cfg, c)|) && Inv(c) && !c.state.KConnecting?
    ensures var r := HandleWrite(cfg, c, w);
            r.queue == c.queue + if cfg.writeComplete && Pending(c) != [] && Pending(r) == [] then [WriteComplete] else []
  {
    if w.Wrote? {
      RetrieveDequeues(c.output, w.n);
    }
  }

  lemma RunFunctorKeeps(c: Conn)
    requires c.queue != [] && Inv(c)
    ensures Inv(RunFunctor(c))
  {
    assert c.queue == [c.queue[0]] + c.queue[1..];
  }

  lemma StepKeeps(cfg: Config, c: Conn, step: Step)
    requires Enabled(cfg, c, step) && Inv(c) && !c.state.KConnecting?
    ensures Inv(Apply(cfg, c, step)) && !Apply(cfg, c, step).state.KConnecting?
  {
    match step
    case Read(r, w) =>
      if r.Received? && r.bytes != [] {
        var a := AfterRead(cfg, c, r.bytes);
        SendKeeps(cfg, a.(input := Retrieve(a.input, |Readable(a.input)|)), Readable(a.input), w);
      }
    case UserSend(data, w) => SendKeeps(cfg, c, data, w);
    case NextFunctor => RunFunctorKeeps(c);
    case _ =>
  }

  lemma {:induction false} RunKeeps(cfg: Config, c: Conn, steps: seq<Step>)
    requires Runnable(cfg, c, steps) && Inv(c) && !c.state.KConnecting?
    ensures Inv(Run(cfg, c, steps)) && !Run(cfg, c, steps).state.KConnecting?
    decreases steps
  {
    if steps != [] {
      StepKeeps(cfg, c, steps[0]);
      RunKeeps(cfg, Apply(cfg, c, steps[0]), steps[1..]);
    }
  }

  function Established(initialSize: nat): Conn {
    ConnectEstablished(New(initialSize))
  }

  lemma EstablishedOk(initialSize: nat)
    ensures var c := Established(initialSize);
            Inv(c) && Conserved(c) && Trails(c) && Echoing(c) && c.accepted == c.received
  {
    var c := Established(initialSize);
    assert Pending(c) == [] && Readable(c.input) == [];
    assert c.state == KConnected && c.events == Events(true, false) && c.queue == [] && !c.shut;
    assert c.accepted == [] && c.received == [] && c.wire == [];
  }

  // ---------------------------------------------------------------- what the socket takes

  /** `sendInLoop`, byte for byte: a direct write moves exactly the count the socket returned, and
      the rest waits; nothing else reaches the wire.  A fatal error drops the message, any other
      leaves it all waiting.  Writing interest ends up on if bytes were left to wait. */
  lemma SendInLoopExact(cfg: Config, c: Conn, data: seq<byte>, w: WriteResult)
    requires Fits(w, |data|) && !(c.state.KDisconnected? && cfg.giveUp.Repaired?)
    ensures var s := SendInLoop(cfg, c, data, w);
            var direct := !c.events.write && Pending(c) == [];
            var took := if direct && w.Wrote? then w.n else 0;
            var fatal := w.WriteFailed? && (w.errno == EPipe || w.errno == EConnReset);
            var left := if direct && fatal then [] else data[took..];
            && s.wire == c.wire + data[..took]
            && Pending(s) == Pending(c) + left
            && (s.events.write <==> c.events.write || left != [])
            && (Inert in s.queue <==> Inert in c.queue || (direct && w == Wrote(|data|) && cfg.writeComplete))
            && s.(wire := c.wire, output := c.output, events := c.events, queue := c.queue) == c
  {
    assert data[0..] == data && data[..0] == [] && c.wire + [] == c.wire && Pending(c) + [] == Pending(c);
    if Direct(c) && w.Wrote? {
      if w.n < |data| {
        EnqueueKeeps(cfg, c.(wire := c.wire + data[..w.n]), data[w.n..]);
      }
    } else if data != [] {
      EnqueueKeeps(cfg, c, data);
    }
  }

  /** `handleWrite`, byte for byte: with writing interest on, exactly the bytes the socket took of
      the span it was offered reach the wire, and as many leave the front of the buffer.  The
      span is the waiting bytes, or, as written, all that lies behind them in the vector. */
  lemma HandleWriteExact(cfg: Config, c: Conn, w: WriteResult)
    requires Fits(w, |WriteOffer(cfg, c)|)
    ensures var h := HandleWrite(cfg, c, w);
            var b := c.output;
            var span := if cfg.io.Repaired? then b.data[b.reader..b.writer] else b.data[b.writer..];
            && (c.events.write && w.Wrote? ==>
                  && w.n <= |span| && h.wire == c.wire + span[..w.n]
                  && Pending(h) == Pending(c)[Min(w.n, |Pending(c)|)..])
            && (!c.events.write || w.WriteFailed? ==> h == c)
            && h.state == c.state && h.input == c.input && h.received == c.received && h.accepted == c.accepted
            && (h.events != c.events <==> c.events.write && w.Wrote? && w.n > 0 && w.n >= |Pending(c)|)
  {
    if w.Wrote? {
      RetrieveDequeues(c.output, w.n);
      assert w.n == 0 ==> c.wire + WriteOffer(cfg, c)[..0] == c.wire;
    }
  }

  // ---------------------------------------------------------------- the state of a connection

  /** An event at which the connection is closed: a hang-up, an error, a failed read or the end
      of the stream. */
  predicate ClosesAt(step: Step) {
    step.CloseEvent? || step.ErrorEvent? || (step.Read? && (step.r.ReadFailed? || step.r.bytes == []))
  }

  function Closings(steps: seq<Step>): nat {
    if steps == [] then 0 else (if ClosesAt(steps[0]) then 1 else 0) + Closings(steps[1..])
  }

  function NextState(state: StateE, step: Step): StateE {
    if ClosesAt(step) then KDisconnected
    else if step.Destroy? && state == KConnected then KDisconnected
    else if step.UserShutdown? && state == KConnected then KDisconnecting
    else state
  }

  /** Where a connection is after these steps, from their kinds alone. */
  function StateAfter(state: StateE, steps: seq<Step>): StateE
    decreases steps
  {
    if steps == [] then state else StateAfter(NextState(state, steps[0]), steps[1..])
  }

  /** Over every run, as written or repaired: the close callback is called once for each closing
      event, and the state is what the kinds of the steps say, no matter what was read, written
      or buffered. */
  lemma {:induction false} StateExact(cfg: Config, c: Conn, steps: seq<Step>)
    requires Runnable(cfg, c, steps)
    ensures Run(cfg, c, steps).state == StateAfter(c.state, steps)
    ensures Run(cfg, c, steps).closeCalls == c.closeCalls + Closings(steps)
    decreases steps
  {
    if steps != [] {
      StateStep(cfg, c, steps[0]);
      StateExact(cfg, Apply(cfg, c, steps[0]), steps[1..]);
    }
  }

  lemma StateStep(cfg: Config, c: Conn, step: Step)
    requires Enabled(cfg, c, step)
    ensures var n := Apply(cfg, c, step);
            && n.closeCalls == c.closeCalls + (if ClosesAt(step) then 1 else 0)
            && n.state == NextState(c.state, step)
  {
    match step
    case Read(r, w) =>
      if r.Received? && r.bytes != [] {
        var a := AfterRead(cfg, c, r.bytes);
        SendState(cfg, a.(input := Retrieve(a.input, |Readable(a.input)|)), Readable(a.input), w);
      }
    case UserSend(data, w) => SendState(cfg, c, data, w);
    case WriteReady(w) => HandleWriteExact(cfg, c, w);
    case _ =>
  }

  lemma SendState(cfg: Config, c: Conn, data: seq<byte>, w: WriteResult)
    requires Fits(w, |data|)
    ensures Send(cfg, c, data, w).state == c.state && Send(cfg, c, data, w).closeCalls == c.closeCalls
  {
  }

  // ---------------------------------------------------------------- conservation of accepted bytes

  /** Every accepted byte is on the wire or waiting, in order. */
  ghost predicate Conserved(c: Conn) {
    c.accepted == c.wire + Pending(c)
  }

  /** What waits is the end of what was accepted, and the wire never lacks a byte: it can only
      have got wrong ones, or too many. */
  ghost predicate Trails(c: Conn) {
    IsTail(c.wire, Pending(c), c.accepted)
  }

  predicate IsTail(wire: seq<byte>, waiting: seq<byte>, accepted: seq<byte>) {
    && |waiting| <= |accepted| <= |wire| + |waiting|
    && accepted[|accepted| - |waiting|..] == waiting
  }

  /** Accepting and queueing the same bytes changes nothing about the past. */
  lemma TailGrows(wire: seq<byte>, waiting: seq<byte>, accepted: seq<byte>, data: seq<byte>)
    requires IsTail(wire, waiting, accepted)
    ensures IsTail(wire, waiting + data, accepted + data)
    ensures accepted + data == wire + (waiting + data) <==> accepted == wire + waiting
  {
    var k := |accepted| - |waiting|;
    assert (accepted + data)[k..] == accepted[k..] + data;
    assert wire + (waiting + data) == (wire + waiting) + data;
    assert (accepted + data)[..|accepted|] == accepted;
    if |accepted| == |wire + waiting| {
      assert ((wire + waiting) + data)[..|accepted|] == wire + waiting;
    }
  }

  /** A write that takes as many bytes off the queue conserves the stream exactly when it was
      conserved and the bytes sent are the ones that waited: damage is never repaired. */
  lemma TailWritten(wire: seq<byte>, waiting: seq<byte>, accepted: seq<byte>, sent: seq<byte>)
    requires IsTail(wire, waiting, accepted)
    ensures var rest := waiting[Min(|sent|, |waiting|)..];
            && IsTail(wire + sent, rest, accepted)
            && (accepted == (wire + sent) + rest <==> accepted == wire + waiting && sent <= waiting)
  {
    var k := |accepted| - |waiting|;
    var rest := waiting[Min(|sent|, |waiting|)..];
    assert accepted == accepted[..k] + waiting;
    if accepted == (wire + sent) + rest {
      assert |sent| <= |waiting| && k == |wire|;
      assert accepted[..k] == wire;
      assert accepted[k..] == sent + rest;
    }
    if accepted == wire + waiting && sent <= waiting {
      assert waiting == sent + rest;
    }
  }

  /** Whatever the socket takes of a message comes off the front of all that waits. */
  lemma SendInLoopTakes(cfg: Config, c: Conn, data: seq<byte>, w: WriteResult) returns (k: nat)
    requires Fits(w, |data|) && !c.state.KDisconnected? && !IsFatal(w)
    ensures var s, all := SendInLoop(cfg, c, data, w), Pending(c) + data;
            k <= |all| && s.wire == c.wire + all[..k] && Pending(s) == all[k..] && s.accepted == c.accepted
  {
    k := if Direct(c) && w.Wrote? then w.n else 0;
    var all := Pending(c) + data;
    assert all[0..] == all && c.wire + all[..0] == c.wire;
    if Direct(c) {
      assert all == data;
    }
    if Direct(c) && w.Wrote? && w.n < |data| {
      EnqueueKeeps(cfg, c.(wire := c.wire + data[..w.n]), data[w.n..]);
      assert [] + data[w.n..] == data[w.n..];
    } else if Direct(c) && w.Wrote? {
      assert data[..w.n] == data && data[w.n..] == [];
    } else if data != [] {
      EnqueueKeeps(cfg, c, data);
    } else {
      assert all == Pending(c);
    }
  }

  lemma SendConserves(cfg: Config, c: Conn, data: seq<byte>, w: WriteResult)
    requires Fits(w, |data|) && Trails(c) && !IsFatal(w)
    ensures Trails(Send(cfg, c, data, w)) && (Conserved(Send(cfg, c, data, w)) <==> Conserved(c))
  {
    if c.state.KConnected? {
      var a := c.(accepted := c.accepted + data);
      var all := Pending(c) + data;
      var k := SendInLoopTakes(cfg, a, data, w);
      TailGrows(c.wire, Pending(c), c.accepted, data);
      TailWritten(c.wire, all, a.accepted, all[..k]);
    }
  }

  /** The write event sends the bytes that wait. */
  predicate Faithful(cfg: Config, c: Conn, step: Step)
    requires Enabled(cfg, c, step)
  {
    step.WriteReady? && step.w.Wrote? && c.events.write ==> WriteOffer(cfg, c)[..step.w.n] <= Pending(c)
  }

  lemma HandleWriteConserves(cfg: Config, c: Conn, w: WriteResult)
    requires Enabled(cfg, c, WriteReady(w)) && Trails(c)
    ensures Trails(HandleWrite(cfg, c, w))
    ensures Conserved(HandleWrite(cfg, c, w)) <==> Conserved(c) && Faithful(cfg, c, WriteReady(w))
  {
    if c.events.write && w.Wrote? {
      HandleWriteExact(cfg, c, w);
      TailWritten(c.wire, Pending(c), c.accepted, WriteOffer(cfg, c)[..w.n]);
    }
  }

  lemma StepConserves(cfg: Config, c: Conn, step: Step)
    requires Enabled(cfg, c, step) && Benign(step) && Trails(c)
    ensures Trails(Apply(cfg, c, step))
    ensures Conserved(Apply(cfg, c, step)) <==> Conserved(c) && Faithful(cfg, c, step)
  {
    match step
    case Read(r, w) =>
      if r.Received? && r.bytes != [] {
        var a := AfterRead(cfg, c, r.bytes);
        SendConserves(cfg, a.(input := Retrieve(a.input, |Readable(a.input)|)), Readable(a.input), w);
      }
    case WriteReady(w) => HandleWriteConserves(cfg, c, w);
    case UserSend(data, w) => SendConserves(cfg, c, data, w);
    case _ =>
  }

  /** Every write event of the run sent the bytes that waited. */
  predicate AllFaithful(cfg: Config, c: Conn, steps: seq<Step>)
    requires Runnable(cfg, c, steps)
    decreases steps
  {
    steps == [] || (Faithful(cfg, c, steps[0]) && AllFaithful(cfg, Apply(cfg, c, steps[0]), steps[1..]))
  }

  lemma {:induction false} RunConservesFrom(cfg: Config, c: Conn, steps: seq<Step>)
    requires Runnable(cfg, c, steps) && AllBenign(steps) && Trails(c)
    ensures Conserved(Run(cfg, c, steps)) <==> Conserved(c) && AllFaithful(cfg, c, steps)
    decreases steps
  {
    if steps != [] {
      StepConserves(cfg, c, steps[0]);
      RunConservesFrom(cfg, Apply(cfg, c, steps[0]), steps[1..]);
    }
  }

  /** Over every run without a fatal write error, as written or repaired: the bytes on the wire
      and those waiting are exactly those accepted if and only if every write event sent bytes
      that waited. */
  lemma ConservedIff(cfg: Config, initialSize: nat, steps: seq<Step>)
    requires AllBenign(steps) && Runnable(cfg, Established(initialSize), steps)
    ensures Conserved(Run(cfg, Established(initialSize), steps)) <==> AllFaithful(cfg, Established(initialSize), steps)
  {
    EstablishedOk(initialSize);
    RunConservesFrom(cfg, Established(initialSize), steps);
  }

  /** With the intended span they always do. */
  lemma {:induction false} RepairedFaithful(cfg: Config, c: Conn, steps: seq<Step>)
    requires cfg.io.Repaired? && Runnable(cfg, c, steps)
    ensures AllFaithful(cfg, c, steps)
    decreases steps
  {
    if steps != [] {
      RepairedFaithful(cfg, Apply(cfg, c, steps[0]), steps[1..]);
    }
  }

  // ---------------------------------------------------------------- graceful shutdown

  /** Over every run, as written or repaired: writing interest is on exactly while bytes wait; a
      connection that is disconnecting has shut the write side, has it queued, or still has
      bytes to write; and it is shut only with nothing waiting. */
  lemma GracefulShutdown(cfg: Config, initialSize: nat, steps: seq<Step>)
    requires Runnable(cfg, Established(initialSize), steps)
    ensures var c := Run(cfg, Established(initialSize), steps);
            && (c.state.KConnected? || c.state.KDisconnecting? ==> c.events.read && (c.events.write <==> Pending(c) != []))
            && (c.state == KDisconnected ==> c.events == NO_EVENTS)
            && (c.state == KDisconnecting ==> c.shut || ShutdownInLoop in c.queue || c.events.write)
            && (c.shut && c.state != KDisconnected ==> c.state == KDisconnecting && Pending(c) == [])
  {
    EstablishedOk(initialSize);
    RunKeeps(cfg, Established(initialSize), steps);
  }

  /** The write side is then shut with exactly the accepted bytes on the wire if and only if
      every write event sent bytes that waited, which the repair guarantees. */
  lemma ShutdownCompleteIff(cfg: Config, initialSize: nat, steps: seq<Step>)
    requires AllBenign(steps) && Runnable(cfg, Established(initialSize), steps)
    requires var c := Run(cfg, Established(initialSize), steps); c.shut && c.state == KDisconnecting
    ensures var c := Run(cfg, Established(initialSize), steps);
            c.wire == c.accepted <==> AllFaithful(cfg, Established(initialSize), steps)
    ensures cfg.io.Repaired? ==> AllFaithful(cfg, Established(initialSize), steps)
  {
    GracefulShutdown(cfg, initialSize, steps);
    ConservedIff(cfg, initialSize, steps);
    var c := Run(cfg, Established(initialSize), steps);
    assert c.wire + [] == c.wire;
    if cfg.io.Repaired? {
      RepairedFaithful(cfg, Established(initialSize), steps);
    }
  }

  lemma {:induction false} AskedNeverConnected(state: StateE, steps: seq<Step>, i: nat)
    requires state != KConnecting && i < |steps| && steps[i].UserShutdown?
    ensures StateAfter(state, steps) == KDisconnecting || StateAfter(state, steps) == KDisconnected
    decreases steps
  {
    if i == 0 {
      NeverConnectedAgain(NextState(state, steps[0]), steps[1..]);
    } else {
      AskedNeverConnected(NextState(state, steps[0]), steps[1..], i - 1);
    }
  }

  lemma {:induction false} NeverConnectedAgain(state: StateE, steps: seq<Step>)
    requires state == KDisconnecting || state == KDisconnected
    ensures StateAfter(state, steps) == KDisconnecting || StateAfter(state, steps) == KDisconnected
    decreases steps
  {
    if steps != [] {
      NeverConnectedAgain(NextState(state, steps[0]), steps[1..]);
    }
  }

  /** A shutdown takes effect: once asked for, as soon as its functor has run and nothing waits to
      be written the write side is shut, unless the connection was closed altogether. */
  lemma ShutdownTakesEffect(cfg: Config, initialSize: nat, steps: seq<Step>, i: nat)
    requires Runnable(cfg, Established(initialSize), steps) && i < |steps| && steps[i].UserShutdown?
    ensures var c := Run(cfg, Established(initialSize), steps);
            c.state == KDisconnected || (c.state == KDisconnecting && (c.shut || ShutdownInLoop in c.queue || Pending(c) != []))
  {
    var e := Established(initialSize);
    AskedNeverConnected(e.state, steps, i);
    StateExact(cfg, e, steps);
    GracefulShutdown(cfg, initialSize, steps);
  }

  /** When a step shuts the write side: the queued functor runs with writing interest off, or a
      write event of a disconnecting connection empties the buffer.  Asking for a shutdown only
      queues the functor, behind whatever is queued already. */
  lemma ShutsIff(cfg: Config, c: Conn, step: Step)
    requires Enabled(cfg, c, step)
    ensures Apply(cfg, c, step).shut <==>
            || c.shut
            || (step.NextFunctor? && c.queue[0] == ShutdownInLoop && !c.events.write)
            || (step.WriteReady? && step.w.Wrote? && c.events.write && c.state == KDisconnecting
                && step.w.n > 0 && step.w.n >= |Pending(c)|)
    ensures step.UserShutdown? ==>
              Apply(cfg, c, step).queue == c.queue + if c.state == KConnected then [ShutdownInLoop] else []
    ensures step.NextFunctor? ==> Apply(cfg, c, step).queue == c.queue[1..]
  {
    if step.WriteReady? {
      if step.w.Wrote? {
        RetrieveDequeues(c.output, step.w.n);
      }
    } else if step.Read? && step.r.Received? && step.r.bytes != [] {
      var a := AfterRead(cfg, c, step.r.bytes);
      SendShut(cfg, a.(input := Retrieve(a.input, |Readable(a.input)|)), Readable(a.input), step.w);
    } else if step.UserSend? {
      SendShut(cfg, c, step.data, step.w);
    }
  }

  lemma SendShut(cfg: Config, c: Conn, data: seq<byte>, w: WriteResult)
    requires Fits(w, |data|)
    ensures Send(cfg, c, data, w).shut == c.shut
  {
  }

  lemma ShutStep(cfg: Config, c: Conn, step: Step)
    requires Enabled(cfg, c, step) && Inv(c) && c.shut
    ensures Apply(cfg, c, step).wire == c.wire && Apply(cfg, c, step).shut
  {
  }

  /** Once the write side is shut no byte is written any more, whatever happens. */
  lemma {:induction false} NoByteAfterShutdown(cfg: Config, c: Conn, steps: seq<Step>)
    requires Runnable(cfg, c, steps) && Inv(c) && c.shut
    ensures Run(cfg, c, steps).wire == c.wire && Run(cfg, c, steps).shut
    decreases steps
  {
    if steps != [] {
      ShutStep(cfg, c, steps[0]);
      StepKeeps(cfg, c, steps[0]);
      NoByteAfterShutdown(cfg, Apply(cfg, c, steps[0]), steps[1..]);
    }
  }

  // ---------------------------------------------------------------- echo

  /** While connected, the message callback leaves nothing in the input buffer, and no more was
      handed to `send` than was received. */
  ghost predicate Echoing(c: Conn) {
    c.state.KConnected? ==> Readable(c.input) == [] && |c.accepted| <= |c.received|
  }

  /** The step is not a read that loses bytes. */
  predicate ReadWhole(cfg: Config, c: Conn, step: Step) {
    step.Read? && step.r.Received? ==> Whole(cfg.io, c.input, step.r.bytes)
  }

  predicate AllReadsWhole(cfg: Config, c: Conn, steps: seq<Step>)
    requires Runnable(cfg, c, steps)
    decreases steps
  {
    steps == [] || (ReadWhole(cfg, c, steps[0]) && AllReadsWhole(cfg, Apply(cfg, c, steps[0]), steps[1..]))
  }

  lemma {:induction false} RepairedReadsWhole(cfg: Config, c: Conn, steps: seq<Step>)
    requires cfg.io.Repaired? && Runnable(cfg, c, steps)
    ensures AllReadsWhole(cfg, c, steps)
    decreases steps
  {
    if steps != [] {
      RepairedReadsWhole(cfg, Apply(cfg, c, steps[0]), steps[1..]);
    }
  }

  lemma ReadEchoes(cfg: Config, c: Conn, bytes: seq<byte>, w: WriteResult)
    requires Enabled(cfg, c, Read(Received(bytes), w)) && Inv(c) && Echoing(c) && c.state.KConnected? && bytes != []
    ensures var n := HandleRead(cfg, c, Received(bytes), w);
            && n.state.KConnected? && Echoing(n)
            && (n.accepted == n.received <==> c.accepted == c.received && Whole(cfg.io, c.input, bytes))
  {
    var a := AfterRead(cfg, c, bytes);
    var msg := Readable(a.input);
    ReadWholeIff(cfg.io, c.input, bytes);
    assert [] + bytes == bytes;
    RetrieveDequeues(a.input, |msg|);
    SendKeeps(cfg, a.(input := Retrieve(a.input, |msg|)), msg, w);
    assert |msg| <= |bytes|;
    if c.accepted + msg == c.received + bytes {
      assert |c.accepted| == |c.received|;
      assert (c.accepted + msg)[..|c.accepted|] == c.accepted && (c.received + bytes)[..|c.received|] == c.received;
      assert (c.accepted + msg)[|c.accepted|..] == msg && (c.received + bytes)[|c.received|..] == bytes;
    }
  }

  lemma EchoStep(cfg: Config, c: Conn, step: Step)
    requires Enabled(cfg, c, step) && Inv(c) && !c.state.KConnecting? && Echoing(c) && !step.UserSend?
    ensures var n := Apply(cfg, c, step);
            && Echoing(n)
            && (n.state.KConnected? ==>
                  c.state.KConnected? && (n.accepted == n.received <==> c.accepted == c.received && ReadWhole(cfg, c, step)))
  {
    if step.Read? && step.r.Received? && step.r.bytes != [] {
      if c.state.KConnected? {
        ReadEchoes(cfg, c, step.r.bytes, step.w);
      }
    }
  }

  /** Everything received has been handed to `send` if and only if no read lost bytes. */
  lemma {:induction false} EchoRun(cfg: Config, c: Conn, steps: seq<Step>)
    requires Runnable(cfg, c, steps) && Inv(c) && !c.state.KConnecting? && Echoing(c)
    requires forall i :: 0 <= i < |steps| ==> !steps[i].UserSend?
    ensures var n := Run(cfg, c, steps);
            n.state.KConnected? ==>
              c.state.KConnected? && (n.accepted == n.received <==> c.accepted == c.received && AllReadsWhole(cfg, c, steps))
    decreases steps
  {
    if steps != [] {
      EchoStep(cfg, c, steps[0]);
      StepKeeps(cfg, c, steps[0]);
      EchoRun(cfg, Apply(cfg, c, steps[0]), steps[1..]);
    }
  }

  /** The echo theorem, exactly: as long as the connection is up and no write failed for good,
      the bytes on the wire and then those waiting are the bytes received, given one of the two
      conditions, if and only if the other holds: that no read lost bytes, and that every write
      event sent bytes that waited. */
  lemma EchoExact(cfg: Config, initialSize: nat, steps: seq<Step>)
    requires AllBenign(steps) && Runnable(cfg, Established(initialSize), steps)
    requires forall i :: 0 <= i < |steps| ==> !steps[i].UserSend?
    requires Run(cfg, Established(initialSize), steps).state.KConnected?
    ensures var e := Established(initialSize); var c := Run(cfg, e, steps);
            && (AllFaithful(cfg, e, steps) ==> (c.wire + Pending(c) == c.received <==> AllReadsWhole(cfg, e, steps)))
            && (AllReadsWhole(cfg, e, steps) ==> (c.wire + Pending(c) == c.received <==> AllFaithful(cfg, e, steps)))
  {
    EstablishedOk(initialSize);
    ConservedIff(cfg, initialSize, steps);
    EchoRun(cfg, Established(initialSize), steps);
  }

  /** With the intended buffer spans both hold, for every pattern of short reads, short writes
      and full sockets. */
  lemma EchoConservation(cfg: Config, initialSize: nat, steps: seq<Step>)
    requires cfg.io.Repaired? && AllBenign(steps) && Runnable(cfg, Established(initialSize), steps)
    requires forall i :: 0 <= i < |steps| ==> !steps[i].UserSend?
    ensures var c := Run(cfg, Established(initialSize), steps);
            c.state.KConnected? ==> c.wire + Pending(c) == c.received
  {
    RepairedFaithful(cfg, Established(initialSize), steps);
    RepairedReadsWhole(cfg, Established(initialSize), steps);
    if Run(cfg, Established(initialSize), steps).state.KConnected? {
      EchoExact(cfg, initialSize, steps);
    }
  }

  // ---------------------------------------------------------------- the code as written

  /** `handleWrite` as written conserves the stream for every outcome exactly when the free
      space it offers happens to repeat the front of the queue. */
  lemma WriteAsWrittenConservesIff(cfg: Config, c: Conn)
    requires cfg.io.AsWritten? && c.events.write
    ensures (forall n: nat | n <= |WriteSpan(c.output)| ::
              HandleWrite(cfg, c, Wrote(n)).wire + Pending(HandleWrite(cfg, c, Wrote(n))) == c.wire + Pending(c))
            <==> WriteSpan(c.output) <= Pending(c)
  {
    var span := WriteSpan(c.output);
    forall n: nat | n <= |span|
      ensures HandleWrite(cfg, c, Wrote(n)).wire + Pending(HandleWrite(cfg, c, Wrote(n))) == c.wire + Pending(c)
              <==> span[..n] <= Pending(c)
    {
      WroteConservesIff(cfg, c, n);
    }
    assert span[..|span|] == span;
    if span <= Pending(c) {
      assert forall n: nat | n <= |span| :: span[..n] == Pending(c)[..n];
    }
  }

  lemma WroteConservesIff(cfg: Config, c: Conn, n: nat)
    requires c.events.write && n <= |WriteOffer(cfg, c)|
    ensures var h := HandleWrite(cfg, c, Wrote(n));
            h.wire + Pending(h) == c.wire + Pending(c) <==> WriteOffer(cfg, c)[..n] <= Pending(c)
  {
    var d := c.(accepted := c.wire + Pending(c));
    assert (c.wire + Pending(c))[|c.wire|..] == Pending(c);
    HandleWriteConserves(cfg, d, Wrote(n));
    assert HandleWrite(cfg, d, Wrote(n)) == HandleWrite(cfg, c, Wrote(n)).(accepted := d.accepted);
  }

  /** A disconnecting connection with bytes waiting: the write event as written shuts the write
      side with the wire complete, whatever the socket takes, if and only if it offers too little
      to drain the buffer or offers exactly the bytes that wait. */
  lemma ShutdownAsWrittenIff(cfg: Config, c: Conn)
    requires cfg.io.AsWritten? && Inv(c) && Conserved(c) && c.state == KDisconnecting && c.events.write
    ensures (forall n: nat | n <= |WriteSpan(c.output)| ::
              HandleWrite(cfg, c, Wrote(n)).shut ==> HandleWrite(cfg, c, Wrote(n)).wire == c.accepted)
            <==> |WriteSpan(c.output)| < |Pending(c)| || WriteSpan(c.output) == Pending(c)
  {
    var span := WriteSpan(c.output);
    forall n: nat | n <= |span|
      ensures HandleWrite(cfg, c, Wrote(n)).shut <==> n >= |Pending(c)|
      ensures n >= |Pending(c)| ==> (HandleWrite(cfg, c, Wrote(n)).wire == c.accepted <==> span[..n] == Pending(c))
    {
      RetrieveDequeues(c.output, n);
      if n >= |Pending(c)| {
        assert HandleWrite(cfg, c, Wrote(n)).wire == c.wire + span[..n];
        assert (c.wire + span[..n])[|c.wire|..] == span[..n] && c.accepted[|c.wire|..] == Pending(c);
      }
    }
    assert span[..|span|] == span;
    if |span| >= |Pending(c)| {
      assert HandleWrite(cfg, c, Wrote(|span|)).shut;
    }
  }

  /** ... so a graceful shutdown can end with bytes on the wire that were never sent. */
  lemma ShutdownFailsAsWritten(giveUp: Variant)
    ensures var cfg := Config(AsWritten, giveUp, None, false);
            var e := Established(4);
            var steps := [UserSend([65], WriteFailed(EWouldBlock)), UserShutdown, WriteReady(Wrote(1))];
            && AllBenign(steps) && Runnable(cfg, e, steps)
            && var c := Run(cfg, e, steps);
               c.state == KDisconnecting && c.shut && c.accepted == [65] && c.wire == [0]
  {
    var cfg := Config(AsWritten, giveUp, None, false);
    var e := Established(4);
    var a := e.(accepted := [65], output := Append(e.output, [65]), events := Events(true, true));
    AppendEnqueues(e.output, [65]);
    assert e.accepted + [65] == [65];
    var b := Shutdown(a);
    assert WriteSpan(b.output) == [0, 0, 0];
    RetrieveDequeues(b.output, 1);
    var d := b.(wire := [0], output := Retrieve(b.output, 1), events := Events(true, false), shut := true);
    assert b.wire + WriteSpan(b.output)[..1] == [0];
    assert Apply(cfg, e, UserSend([65], WriteFailed(EWouldBlock))) == a;
    assert Apply(cfg, b, WriteReady(Wrote(1))) == d;
    RunOfThree(cfg, e, UserSend([65], WriteFailed(EWouldBlock)), UserShutdown, WriteReady(Wrote(1)));
  }

  lemma RunOfThree(cfg: Config, c: Conn, s1: Step, s2: Step, s3: Step)
    requires Enabled(cfg, c, s1) && Enabled(cfg, Apply(cfg, c, s1), s2)
    requires Enabled(cfg, Apply(cfg, Apply(cfg, c, s1), s2), s3)
    ensures Runnable(cfg, c, [s1, s2, s3])
    ensures Run(cfg, c, [s1, s2, s3]) == Apply(cfg, Apply(cfg, Apply(cfg, c, s1), s2), s3)
  {
    var n1 := Apply(cfg, c, s1);
    var n2 := Apply(cfg, n1, s2);
    assert [s1, s2, s3][1..] == [s2, s3] && [s2, s3][1..] == [s3] && [s3][1..] == [];
    assert Runnable(cfg, n2, [s3]) && Run(cfg, n2, [s3]) == Apply(cfg, n2, s3);
    assert Runnable(cfg, n1, [s2, s3]);
  }

  /** With the read as written a message is echoed whole if and only if it is shorter than the
      free space of the input buffer, or there is none. */
  lemma EchoReadAsWrittenIff(cfg: Config, c: Conn, bytes: seq<byte>, w: WriteResult)
    requires cfg.io.AsWritten? && Inv(c) && c.state.KConnected? && Echoing(c) && Conserved(c) && c.accepted == c.received
    requires bytes != [] && !IsFatal(w) && Enabled(cfg, c, Read(Received(bytes), w))
    ensures var n := Apply(cfg, c, Read(Received(bytes), w));
            n.wire + Pending(n) == n.received <==> |bytes| < WritableBytes(c.input) || WritableBytes(c.input) == 0
  {
    ReadEchoes(cfg, c, bytes, w);
    StepConserves(cfg, c, Read(Received(bytes), w));
  }

  /** The echo theorem fails as written: a first message that exactly fills the input buffer
      vanishes, though the connection stays up and no write fails. */
  lemma EchoFailsAsWritten(cfg: Config, bytes: seq<byte>)
    requires cfg.io.AsWritten? && bytes != []
    ensures var c := Established(|bytes|); var step := Read(Received(bytes), Wrote(0));
            && Enabled(cfg, c, step) && Benign(step)
            && var n := Apply(cfg, c, step);
               n.state.KConnected? && n.received == bytes && n.wire + Pending(n) == []
  {
    var c := Established(|bytes|);
    ReadFdExact(c.input, bytes);
    assert bytes[|bytes|..] == [];
    var a := AfterRead(cfg, c, bytes);
    assert Readable(a.input) == [];
  }

  /** `sendInLoop` on a disconnected connection as written: it gives up, whatever the socket
      would do, exactly when there is nothing to write and no completion to announce. */
  lemma GiveUpIff(cfg: Config, c: Conn, data: seq<byte>)
    requires cfg.giveUp.AsWritten? && c.state.KDisconnected?
    ensures (forall w | Fits(w, |data|) :: SendInLoop(cfg, c, data, w) == c)
            <==> data == [] && !(Direct(c) && cfg.writeComplete)
  {
    var w := WriteFailed(EWouldBlock);
    if data != [] {
      EnqueueKeeps(cfg, c, data);
      assert |Pending(SendInLoop(cfg, c, data, w))| > |Pending(c)|;
    } else if Direct(c) && cfg.writeComplete {
      assert Fits(Wrote(0), |data|);
      assert |SendInLoop(cfg, c, data, Wrote(0)).queue| > |c.queue|;
    } else {
      assert forall w | Fits(w, |data|) && w.Wrote? :: data[..w.n] == [] && c.wire + [] == c.wire;
    }
  }

  /** ... and otherwise it can put a closed channel back under writing interest. */
  lemma ClosedChannelRearmed(cfg: Config, c: Conn, data: seq<byte>)
    requires cfg.giveUp.AsWritten? && Inv(c) && data != []
    ensures SendInLoop(cfg, HandleClose(c), data, WriteFailed(EWouldBlock)).events.write
    ensures SendInLoop(cfg.(giveUp := Repaired), HandleClose(c), data, WriteFailed(EWouldBlock)) == HandleClose(c)
  {
  }

  // ---------------------------------------------------------------- high-water mark

  /** The notifications among queued functors. */
  function Notices(queue: seq<Functor>): seq<nat> {
    if queue == [] then [] else
      (if queue[0].HighWater? then [queue[0].len] else []) + Notices(queue[1..])
  }

  /** The notifications made, then those queued. */
  function Told(c: Conn): seq<nat> {
    c.notified + Notices(c.queue)
  }

  /** The new length, if it rose from below the mark to it or above. */
  function Crossed(cfg: Config, c: Conn, n: Conn): seq<nat> {
    if CrossesMark(cfg, |Pending(c)|, |Pending(n)|) then [|Pending(n)|] else []
  }

  /** The lengths at which the output buffer reached the mark from below, in order. */
  function Crossings(cfg: Config, c: Conn, steps: seq<Step>): seq<nat>
    requires Runnable(cfg, c, steps)
    decreases steps
  {
    if steps == [] then [] else
      var n := Apply(cfg, c, steps[0]);
      Crossed(cfg, c, n) + Crossings(cfg, n, steps[1..])
  }

  lemma {:induction false} NoticesSnoc(queue: seq<Functor>, f: Functor)
    ensures Notices(queue + [f]) == Notices(queue) + if f.HighWater? then [f.len] else []
  {
    if queue != [] {
      NoticesSnoc(queue[1..], f);
      assert (queue + [f])[1..] == queue[1..] + [f];
    }
  }

  lemma EnqueueTells(cfg: Config, c: Conn, rest: seq<byte>)
    ensures var n := Enqueue(cfg, c, rest); Told(n) == Told(c) + Crossed(cfg, c, n)
  {
    AppendEnqueues(c.output, rest);
    var len := |Pending(c)| + |rest|;
    NoticesSnoc(c.queue, HighWater(len));
    Associative(c.notified, Notices(c.queue), [len]);
  }

  lemma SendInLoopTells(cfg: Config, c: Conn, data: seq<byte>, w: WriteResult)
    requires Fits(w, |data|)
    ensures var n := SendInLoop(cfg, c, data, w); Told(n) == Told(c) + Crossed(cfg, c, n)
  {
    EnqueueTells(cfg, c, data);
    if w.Wrote? {
      EnqueueTells(cfg, c.(wire := c.wire + data[..w.n]), data[w.n..]);
      NoticesSnoc(c.queue, Inert);
    }
  }

  lemma HandleWriteTells(cfg: Config, c: Conn, w: WriteResult)
    requires Fits(w, |WriteOffer(cfg, c)|)
    ensures var n := HandleWrite(cfg, c, w); Told(n) == Told(c) && |Pending(n)| <= |Pending(c)|
  {
    var n := HandleWrite(cfg, c, w);
    assert n.notified == c.notified;
    if c.events.write && w.Wrote? && w.n > 0 {
      RetrieveDequeues(c.output, w.n);
      NoticesSnoc(c.queue, WriteComplete);
      assert n.queue == c.queue || n.queue == c.queue + [WriteComplete];
    } else {
      assert n == c;
    }
  }

  lemma QueueTells(c: Conn)
    ensures Told(Shutdown(c)) == Told(c)
    ensures c.queue != [] ==> Told(RunFunctor(c)) == Told(c)
  {
    NoticesSnoc(c.queue, ShutdownInLoop);
    if c.queue != [] && c.queue[0].HighWater? {
      Associative(c.notified, [c.queue[0].len], Notices(c.queue[1..]));
    }
  }

  lemma StepTells(cfg: Config, c: Conn, step: Step)
    requires Enabled(cfg, c, step)
    ensures var n := Apply(cfg, c, step); Told(n) == Told(c) + Crossed(cfg, c, n)
  {
    match step
    case Read(r, w) =>
      if r.Received? && r.bytes != [] {
        var a := AfterRead(cfg, c, r.bytes);
        var msg := Readable(a.input);
        var b := a.(input := Retrieve(a.input, |msg|));
        SendInLoopTells(cfg, b.(accepted := b.accepted + msg), msg, w);
      }
    case UserSend(data, w) => SendInLoopTells(cfg, c.(accepted := c.accepted + data), data, w);
    case WriteReady(w) => HandleWriteTells(cfg, c, w);
    case UserShutdown => QueueTells(c);
    case NextFunctor => QueueTells(c);
    case _ =>
  }

  /** The high-water notification is edge triggered: over every run, with the code as written
      or repaired, the notifications made and then those queued are exactly the upward
      crossings of the mark, one each, in order, with the length reached. */
  lemma {:induction false} HighWaterEdgeTriggered(cfg: Config, c: Conn, steps: seq<Step>)
    requires Runnable(cfg, c, steps)
    ensures Told(Run(cfg, c, steps)) == Told(c) + Crossings(cfg, c, steps)
    decreases steps
  {
    if steps != [] {
      var n := Apply(cfg, c, steps[0]);
      StepTells(cfg, c, steps[0]);
      HighWaterEdgeTriggered(cfg, n, steps[1..]);
      Associative(Told(c), Crossed(cfg, c, n), Crossings(cfg, n, steps[1..]));
    }
  }
}

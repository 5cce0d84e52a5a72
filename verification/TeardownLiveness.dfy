/** The teardown protocol is live: on fair runs of all loops a connection that went down is
    eventually closed, however often its close handler ran and its channel was added again. */
module TeardownLiveness {
  import opened Basics
  import opened ChannelSpec
  import C = ConnectionSpec
  import opened TeardownSpec
  import opened TeardownProof

  // ---------------------------------------------------------------- what a step does to a loop

  /** Loops differ at most in their poller. */
  ghost predicate SameControl(s: State, t: State) {
    && s.loops.Keys == t.loops.Keys
    && forall l | l in s.loops :: SameHands(s.loops[l], t.loops[l]) && t.loops[l].queue == s.loops[l].queue
  }

  /** What the loop's thread has in hand, but for the queue that others append to. */
  predicate SameHands(a: Loop, b: Loop) {
    b.phase == a.phase && b.active == a.active && b.current == a.current && b.todo == a.todo && b.batch == a.batch
  }

  lemma MaskControl(s: State, c: ConnId, mask: Events)
    requires Known(s, c)
    ensures SameControl(s, SetEvents(s, c, mask))
    ensures SetEvents(s, c, mask).conns
            == s.conns[c := s.conns[c].(events := mask, index := UpdateIndex(s.conns[c].index, mask))]
  {
  }

  lemma UnregisterControl(s: State, c: ConnId)
    requires Known(s, c)
    ensures SameControl(s, RemoveChannel(s, c))
    ensures RemoveChannel(s, c).conns == s.conns[c := s.conns[c].(index := New)]
  {
  }

  lemma EstablishControl(s: State, c: ConnId)
    requires Known(s, c)
    ensures SameControl(s, ConnectEstablished(s, c))
  {
    MaskControl(SetState(s, c, C.KConnected), c, s.conns[c].events.(read := true));
  }

  lemma DestroyControl(s: State, c: ConnId)
    requires Known(s, c)
    ensures SameControl(s, ConnectDestroyed(s, c))
    ensures var t := ConnectDestroyed(s, c);
            && t.conns.Keys == s.conns.Keys && (forall d | d in s.conns && d != c :: t.conns[d] == s.conns[d])
            && t.conns[c].loop == s.conns[c].loop && t.conns[c].fd == s.conns[c].fd && t.conns[c].index == New
            && (s.conns[c].state == C.KDisconnected ==> t.conns[c].state == C.KDisconnected)
  {
    if s.conns[c].state.KConnected? {
      var m := SetState(s, c, C.KDisconnected);
      MaskControl(m, c, NO_EVENTS);
      UnregisterControl(SetEvents(m, c, NO_EVENTS), c);
    } else {
      UnregisterControl(s, c);
    }
  }

  // ---------------------------------------------------------------- queues

  /** How many functors a step takes from the front of a queue. */
  function Pops(step: Step, l: LoopId): nat {
    if step == RunFunctor(l) then 1 else 0
  }

  /** What a removal of `c`, decided on loop `k`, appends to the queue of `l`. */
  function RemovalPushes(s: State, k: LoopId, c: ConnId, l: LoopId): seq<Functor>
    requires Known(s, c)
  {
    if k == BASE then (if l == s.conns[c].loop then [Destroy(c)] else [])
    else if l == BASE then [RemoveConn(c)] else []
  }

  /** What a step appends to the queue of `l`. */
  ghost function Pushes(s: State, step: Step, l: LoopId): seq<Functor>
    requires Enabled(s, step)
  {
    match step
    case Accept(_, k) => if k != BASE && l == k then [Establish(s.nextConnId)] else []
    case RunCallback(k, eof) =>
      if Closes(s.loops[k].todo[0], eof) then RemovalPushes(s, k, s.loops[k].current.value, l) else []
    case RunFunctor(k) =>
      var f := s.loops[k].queue[0];
      if f.RemoveConn? && l == s.conns[f.conn].loop then [Destroy(f.conn)] else []
    case UserShutdown(c) => if l == s.conns[c].loop then [Shutdown(c)] else []
    case UserNotify(c) => if l == s.conns[c].loop then [Notify(c)] else []
    case _ => []
  }

  lemma RemovalControl(s: State, k: LoopId, c: ConnId, l: LoopId)
    requires Known(s, c) && BASE in s.loops && l in s.loops
    ensures var t := RemoveConnection(s, k, c);
            && t.loops.Keys == s.loops.Keys && t.conns == s.conns
            && SameHands(s.loops[l], t.loops[l]) && t.loops[l].queue == s.loops[l].queue + RemovalPushes(s, k, c, l)
  {
  }

  /** A step on the queues and hands of loop `l`. */
  ghost predicate QueueStep(s: State, step: Step, t: State, l: LoopId)
    requires Enabled(s, step)
  {
    && t.loops.Keys == s.loops.Keys && l in s.loops
    && Pops(step, l) <= |s.loops[l].queue|
    && t.loops[l].queue == s.loops[l].queue[Pops(step, l)..] + Pushes(s, step, l)
    && (!MovesLoop(step, l) ==> SameHands(s.loops[l], t.loops[l]))
  }

  /** The step is one of the thread of `l`. */
  predicate MovesLoop(step: Step, l: LoopId) {
    match step
    case Poll(k, _) => k == l
    case BeginEvent(k) => k == l
    case RunCallback(k, _) => k == l
    case EndEvent(k) => k == l
    case TakeFunctors(k) => k == l
    case RunFunctor(k) => k == l
    case EndFunctors(k) => k == l
    case _ => false
  }

  lemma AcceptQueue(s: State, fd: Fd, k: LoopId, l: LoopId)
    requires Enabled(s, Accept(fd, k)) && l in s.loops
    ensures QueueStep(s, Accept(fd, k), Apply(s, Accept(fd, k)), l)
  {
    if k == BASE {
      EstablishControl(Accepted(s, fd, k), s.nextConnId);
    }
  }

  lemma CallbackQueue(s: State, k: LoopId, eof: bool, l: LoopId)
    requires Enabled(s, RunCallback(k, eof)) && l in s.loops
    ensures QueueStep(s, RunCallback(k, eof), Apply(s, RunCallback(k, eof)), l)
    ensures k == l ==> SameHands(s.loops[l].(todo := s.loops[l].todo[1..]), Apply(s, RunCallback(k, eof)).loops[l])
  {
    var loop := s.loops[k];
    var m := PutLoop(s, k, loop.(todo := loop.todo[1..]));
    if Closes(loop.todo[0], eof) {
      var c := loop.current.value;
      MaskControl(SetState(m, c, C.KDisconnected), c, NO_EVENTS);
      RemovalControl(Masking(m, c), k, c, l);
    }
  }

  lemma FunctorQueue(s: State, k: LoopId, l: LoopId)
    requires Enabled(s, RunFunctor(k)) && l in s.loops
    ensures QueueStep(s, RunFunctor(k), Apply(s, RunFunctor(k)), l)
  {
    var m := Popped(s, k);
    match s.loops[k].queue[0]
    case Establish(c) => EstablishControl(m, c);
    case Destroy(c) => DestroyControl(m, c);
    case _ =>
  }

  lemma UserQueue(s: State, step: Step, l: LoopId)
    requires Enabled(s, step) && l in s.loops
    requires step.UserShutdown? || step.UserWriting? || step.UserNotify? || step.CloseSocket?
    ensures QueueStep(s, step, Apply(s, step), l)
  {
    if step.UserWriting? {
      MaskControl(s, step.c, s.conns[step.c].events.(write := step.on));
    }
  }

  lemma StepQueue(s: State, step: Step, l: LoopId)
    requires Enabled(s, step) && l in s.loops
    ensures QueueStep(s, step, Apply(s, step), l)
  {
    match step
    case Accept(fd, k) => AcceptQueue(s, fd, k, l);
    case RunCallback(k, eof) => CallbackQueue(s, k, eof, l);
    case RunFunctor(k) => FunctorQueue(s, k, l);
    case UserShutdown(_) => UserQueue(s, step, l);
    case UserWriting(_, _) => UserQueue(s, step, l);
    case UserNotify(_) => UserQueue(s, step, l);
    case CloseSocket(_) => UserQueue(s, step, l);
    case _ =>
  }

  // ---------------------------------------------------------------- a connection that is down stays down

  ghost predicate Down(s: State, c: ConnId) {
    Known(s, c) && s.conns[c].state == C.KDisconnected
  }

  /** ... and once out of its poller it stays out. */
  ghost predicate Gone(s: State, c: ConnId) {
    Down(s, c) && s.conns[c].index == New
  }

  ghost predicate StaysDown(s: State, t: State, c: ConnId) {
    && (Known(s, c) ==> Known(t, c) && t.conns[c].loop == s.conns[c].loop && t.conns[c].fd == s.conns[c].fd)
    && (Down(s, c) ==> Down(t, c)) && (Gone(s, c) ==> Gone(t, c))
  }

  lemma MaskStaysDown(s: State, d: ConnId, mask: Events, c: ConnId)
    requires Known(s, d) && s.conns[d].index != New
    ensures StaysDown(s, SetEvents(s, d, mask), c)
  {
    MaskControl(s, d, mask);
  }

  lemma CallbackStaysDown(s: State, k: LoopId, eof: bool, c: ConnId)
    requires Enabled(s, RunCallback(k, eof)) && OnLoop(s, k, s.loops[k].current.value)
    ensures StaysDown(s, Apply(s, RunCallback(k, eof)), c)
  {
    var loop := s.loops[k];
    var m := PutLoop(s, k, loop.(todo := loop.todo[1..]));
    var d := loop.current.value;
    if Closes(loop.todo[0], eof) {
      MaskStaysDown(SetState(m, d, C.KDisconnected), d, NO_EVENTS, c);
      MaskControl(SetState(m, d, C.KDisconnected), d, NO_EVENTS);
      RemovalControl(Masking(m, d), k, d, k);
    }
  }

  lemma FunctorStaysDown(s: State, k: LoopId, c: ConnId)
    requires Enabled(s, RunFunctor(k)) && FunctorOk(s, k, s.loops[k].queue[0])
    ensures StaysDown(s, Apply(s, RunFunctor(k)), c)
  {
    var m := Popped(s, k);
    match s.loops[k].queue[0]
    case Establish(d) => MaskControl(SetState(m, d, C.KConnected), d, m.conns[d].events.(read := true));
    case RemoveConn(d) => RemovalControl(m, BASE, d, k);
    case Destroy(d) => DestroyControl(m, d);
    case _ =>
  }

  lemma AcceptStaysDown(s: State, fd: Fd, k: LoopId, c: ConnId)
    requires Enabled(s, Accept(fd, k)) && s.nextConnId !in s.conns
    ensures StaysDown(s, Apply(s, Accept(fd, k)), c)
  {
    if k == BASE {
      var m := SetState(Accepted(s, fd, k), s.nextConnId, C.KConnected);
      MaskControl(m, s.nextConnId, m.conns[s.nextConnId].events.(read := true));
    }
  }

  lemma UserStaysDown(s: State, step: Step, c: ConnId)
    requires Enabled(s, step) && (step.UserShutdown? || step.UserWriting? || step.UserNotify? || step.CloseSocket?)
    ensures StaysDown(s, Apply(s, step), c)
  {
    if step.UserWriting? {
      MaskControl(s, step.c, s.conns[step.c].events.(write := step.on));
    }
  }

  /** What a step that works on a connection finds it to be. */
  lemma StepFinds(s: State, step: Step)
    requires Inv(s) && Enabled(s, step)
    ensures s.nextConnId !in s.conns
    ensures step.RunCallback? ==> OnLoop(s, step.l, s.loops[step.l].current.value)
    ensures step.RunFunctor? ==> FunctorOk(s, step.l, s.loops[step.l].queue[0])
  {
  }

  lemma StepStaysDown(s: State, step: Step, c: ConnId)
    requires Inv(s) && Enabled(s, step)
    ensures StaysDown(s, Apply(s, step), c)
  {
    StepFinds(s, step);
    match step
    case Accept(fd, k) => AcceptStaysDown(s, fd, k, c);
    case RunCallback(k, eof) => CallbackStaysDown(s, k, eof, c);
    case RunFunctor(k) => FunctorStaysDown(s, k, c);
    case UserShutdown(_) => UserStaysDown(s, step, c);
    case UserWriting(_, _) => UserStaysDown(s, step, c);
    case UserNotify(_) => UserStaysDown(s, step, c);
    case CloseSocket(_) => UserStaysDown(s, step, c);
    case _ =>
  }

  /** A connection that is gone is pushed about only by the removals still queued. */
  lemma GonePushes(s: State, step: Step, l: LoopId, c: ConnId)
    requires Inv(s) && Enabled(s, step) && l in s.loops && Gone(s, c)
    ensures forall f | f in Pushes(s, step, l) && f.conn == c :: f == Destroy(c) && Queued(s, BASE, RemoveConn(c))
  {
    StepFinds(s, step);
    PushesAbout(s, step, l, c);
  }

  lemma PushesAbout(s: State, step: Step, l: LoopId, c: ConnId)
    requires Enabled(s, step) && l in s.loops && Gone(s, c) && s.nextConnId !in s.conns
    requires step.RunCallback? ==> OnLoop(s, step.l, s.loops[step.l].current.value)
    requires step.RunFunctor? ==> FunctorOk(s, step.l, s.loops[step.l].queue[0])
    ensures forall f | f in Pushes(s, step, l) && f.conn == c :: f == Destroy(c) && Queued(s, BASE, RemoveConn(c))
  {
  }

  // ---------------------------------------------------------------- fair runs

  /** An infinite run of all loops: the states passed through and the step taken, if any. */
  ghost predicate IsRun(at: nat -> State, does: nat -> Option<Step>) {
    forall i: nat :: StepTaken(at, does, i)
  }

  ghost predicate StepTaken(at: nat -> State, does: nat -> Option<Step>, i: nat) {
    match does(i)
    case Some(step) => Enabled(at(i), step) && at(i + 1) == Apply(at(i), step)
    case None => at(i + 1) == at(i)
  }

  predicate Moves(move: Option<Step>, l: LoopId) {
    move.Some? && MovesLoop(move.value, l)
  }

  /** The loop is in `poll` and has nothing queued that would have woken it. */
  predicate Waiting(s: State, l: LoopId) {
    l in s.loops && s.loops[l].phase.Polling? && s.loops[l].queue == []
  }

  ghost predicate GoesOn(at: nat -> State, does: nat -> Option<Step>, i: nat, l: LoopId) {
    exists j: nat :: i <= j && (Moves(does(j), l) || Waiting(at(j), l))
  }

  ghost predicate Releases(at: nat -> State, does: nat -> Option<Step>, i: nat, c: ConnId) {
    exists j: nat :: i <= j && (does(j) == Some(CloseSocket(c)) || !Enabled(at(j), CloseSocket(c)))
  }

  /** Every loop goes on unless it waits with an empty queue, which is what `EventLoopSpec` shows of
      one loop; and an object that nothing holds is released. */
  ghost predicate Fair(at: nat -> State, does: nat -> Option<Step>) {
    && (forall i: nat, l: LoopId :: l in at(i).loops ==> GoesOn(at, does, i, l))
    && (forall i: nat, c: ConnId :: Releases(at, does, i, c))
  }

  lemma SoundStep(at: nat -> State, does: nat -> Option<Step>, i: nat)
    requires IsRun(at, does) && Inv(at(i))
    ensures Inv(at(i + 1)) && at(i + 1).loops.Keys == at(i).loops.Keys
  {
    assert StepTaken(at, does, i);
    if does(i).Some? {
      StepKeeps(at(i), does(i).value);
      StepQueue(at(i), does(i).value, BASE);
    }
  }

  lemma DownStep(at: nat -> State, does: nat -> Option<Step>, i: nat, c: ConnId)
    requires IsRun(at, does) && Sound(at)
    ensures StaysDown(at(i), at(i + 1), c)
  {
    assert SoundAt(at, i);
    assert StepTaken(at, does, i);
    if does(i).Some? {
      StepStaysDown(at(i), does(i).value, c);
    }
  }

  lemma DownTrans(s: State, m: State, t: State, c: ConnId)
    requires StaysDown(s, m, c) && StaysDown(m, t, c)
    ensures StaysDown(s, t, c)
  {
  }

  lemma {:induction false} StaysSound(at: nat -> State, does: nat -> Option<Step>, i: nat, j: nat)
    requires IsRun(at, does) && Inv(at(i)) && i <= j
    ensures Inv(at(j)) && at(j).loops.Keys == at(i).loops.Keys
    decreases j - i
  {
    if i < j {
      SoundStep(at, does, i);
      StaysSound(at, does, i + 1, j);
    }
  }

  /** The invariant holds in every state of the run. */
  ghost predicate Sound(at: nat -> State) {
    forall i: nat :: SoundAt(at, i)
  }

  ghost predicate SoundAt(at: nat -> State, i: nat) {
    Inv(at(i)) && at(i).loops.Keys == at(0).loops.Keys
  }

  lemma RunIsSound(at: nat -> State, does: nat -> Option<Step>)
    requires IsRun(at, does) && Init(at(0))
    ensures Sound(at)
  {
    InitOk(at(0));
    forall i: nat
      ensures SoundAt(at, i)
    {
      StaysSound(at, does, 0, i);
    }
  }

  lemma {:induction false} StaysDownLater(at: nat -> State, does: nat -> Option<Step>, i: nat, j: nat, c: ConnId)
    requires IsRun(at, does) && Sound(at) && i <= j && Known(at(i), c)
    ensures StaysDown(at(i), at(j), c)
    decreases j - i
  {
    if i < j {
      DownStep(at, does, i, c);
      StaysDownLater(at, does, i + 1, j, c);
      DownTrans(at(i), at(i + 1), at(j), c);
    }
  }

  /** While the thread of `l` does not move, its queue is only appended to. */
  lemma {:induction false} QueueGrows(at: nat -> State, does: nat -> Option<Step>, i: nat, j: nat, l: LoopId)
    requires IsRun(at, does) && i <= j && l in at(i).loops
    requires forall k :: i <= k < j ==> !Moves(does(k), l)
    ensures l in at(j).loops && SameHands(at(i).loops[l], at(j).loops[l])
    ensures at(i).loops[l].queue <= at(j).loops[l].queue
    decreases j
  {
    if i < j {
      QueueGrows(at, does, i, j - 1, l);
      assert StepTaken(at, does, j - 1);
      if does(j - 1).Some? {
        StepQueue(at(j - 1), does(j - 1).value, l);
        assert Pops(does(j - 1).value, l) == 0;
      }
    }
  }

  /** A loop that dispatches or has something queued moves again, in the state it is in now. */
  lemma NextMove(at: nat -> State, does: nat -> Option<Step>, i: nat, l: LoopId) returns (k: nat)
    requires IsRun(at, does) && Fair(at, does) && l in at(i).loops
    requires at(i).loops[l].queue != [] || !at(i).loops[l].phase.Polling?
    ensures i <= k && Moves(does(k), l) && l in at(k).loops && SameHands(at(i).loops[l], at(k).loops[l])
    ensures at(i).loops[l].queue <= at(k).loops[l].queue
  {
    if forall m: nat :: i <= m ==> !Moves(does(m), l) {
      assert GoesOn(at, does, i, l);
      var j: nat :| i <= j && Waiting(at(j), l);
      QueueGrows(at, does, i, j, l);
      assert false;
    }
    var j: nat :| i <= j && Moves(does(j), l);
    var moves := (n: nat) => Moves(does(n), l);
    k := First(moves, i, j);
    assert forall m: nat | i <= m < k :: Moves(does(m), l) == moves(m);
    QueueGrows(at, does, i, k, l);
  }

  // ---------------------------------------------------------------- the next functor runs

  /** How far the thread is from running its next functor, in phases. */
  function Turn(loop: Loop): nat {
    match loop.phase
    case Functors => if loop.batch > 0 then 1 else 5
    case Polling => 4
    case Handling => 3
  }

  /** What is left of the dispatch: each event may have up to four callbacks. */
  function Work(loop: Loop): nat {
    6 * |loop.active| + if loop.current.Some? then 1 + |loop.todo| else 0
  }

  predicate Nearer(a: Loop, b: Loop) {
    Turn(a) < Turn(b) || (Turn(a) == Turn(b) && Work(a) < Work(b))
  }

  lemma OwnMove(s: State, step: Step, l: LoopId)
    requires Enabled(s, step) && MovesLoop(step, l) && step != RunFunctor(l)
    requires s.loops[l].queue != [] && (s.loops[l].current.Some? ==> s.loops[l].phase.Handling?)
    ensures l in Apply(s, step).loops && Nearer(Apply(s, step).loops[l], s.loops[l])
  {
    if step.RunCallback? {
      CallbackQueue(s, l, step.eof, l);
    }
  }

  /** The queue of a loop is not for ever kept waiting: its first functor is run. */
  lemma {:induction false} NextPop(at: nat -> State, does: nat -> Option<Step>, i: nat, l: LoopId) returns (k: nat)
    requires IsRun(at, does) && Fair(at, does) && Sound(at) && l in at(i).loops && at(i).loops[l].queue != []
    ensures i <= k && does(k) == Some(RunFunctor(l)) && l in at(k).loops
    ensures at(i).loops[l].queue <= at(k).loops[l].queue
    decreases Turn(at(i).loops[l]), Work(at(i).loops[l])
  {
    k := NextMove(at, does, i, l);
    if does(k) != Some(RunFunctor(l)) {
      var m := k + 1;
      NearerStep(at, does, k, l);
      assert Nearer(at(m).loops[l], at(i).loops[l]);
      k := NextPop(at, does, m, l);
    }
  }

  lemma NearerStep(at: nat -> State, does: nat -> Option<Step>, k: nat, l: LoopId)
    requires IsRun(at, does) && Sound(at) && l in at(k).loops && at(k).loops[l].queue != []
    requires Moves(does(k), l) && does(k) != Some(RunFunctor(l))
    ensures l in at(k + 1).loops && Nearer(at(k + 1).loops[l], at(k).loops[l])
    ensures at(k).loops[l].queue <= at(k + 1).loops[l].queue
  {
    assert StepTaken(at, does, k) && SoundAt(at, k);
    HandlingCurrent(at(k), l);
    OwnMove(at(k), does(k).value, l);
    StepQueue(at(k), does(k).value, l);
    assert Pops(does(k).value, l) == 0;
  }

  lemma HandlingCurrent(s: State, l: LoopId)
    requires Inv(s) && l in s.loops
    ensures s.loops[l].current.Some? ==> s.loops[l].phase.Handling?
  {
  }

  /** A functor that is queued is run, when its turn comes. */
  lemma {:induction false} RunsAt(at: nat -> State, does: nat -> Option<Step>, i: nat, l: LoopId, p: nat) returns (k: nat)
    requires IsRun(at, does) && Fair(at, does) && Sound(at) && l in at(i).loops && p < |at(i).loops[l].queue|
    ensures i <= k && does(k) == Some(RunFunctor(l)) && l in at(k).loops
    ensures at(k).loops[l].queue != [] && at(k).loops[l].queue[0] == at(i).loops[l].queue[p]
    decreases p
  {
    k := NextPop(at, does, i, l);
    if p > 0 {
      PopStep(at, does, k, l);
      k := RunsAt(at, does, k + 1, l, p - 1);
    }
  }

  lemma PopStep(at: nat -> State, does: nat -> Option<Step>, k: nat, l: LoopId)
    requires IsRun(at, does) && does(k) == Some(RunFunctor(l))
    ensures l in at(k).loops && l in at(k + 1).loops && at(k).loops[l].queue != []
    ensures at(k).loops[l].queue[1..] <= at(k + 1).loops[l].queue
  {
    assert StepTaken(at, does, k);
    StepQueue(at(k), does(k).value, l);
  }

  // ---------------------------------------------------------------- a functor stops occurring

  /** From position `p` on the queue of `l` holds none of `bad`. */
  ghost predicate Clear(s: State, l: LoopId, p: nat, bad: set<Functor>) {
    l in s.loops && forall i | p <= i < |s.loops[l].queue| :: s.loops[l].queue[i] !in bad
  }

  /** From moment `i` on no step queues any of `bad` on `l`. */
  ghost predicate Unpushed(at: nat -> State, does: nat -> Option<Step>, i: nat, l: LoopId, bad: set<Functor>) {
    forall j: nat :: i <= j ==> PushesNone(at, does, j, l, bad)
  }

  ghost predicate PushesNone(at: nat -> State, does: nat -> Option<Step>, j: nat, l: LoopId, bad: set<Functor>) {
    does(j).Some? && Enabled(at(j), does(j).value) ==> forall f | f in Pushes(at(j), does(j).value, l) :: f !in bad
  }

  lemma ClearStep(at: nat -> State, does: nat -> Option<Step>, j: nat, l: LoopId, p: nat, bad: set<Functor>)
    requires IsRun(at, does) && Clear(at(j), l, p, bad) && PushesNone(at, does, j, l, bad)
    ensures Clear(at(j + 1), l, p, bad)
    ensures does(j) == Some(RunFunctor(l)) && p > 0 ==> Clear(at(j + 1), l, p - 1, bad)
  {
    assert StepTaken(at, does, j);
    if does(j).Some? {
      StepQueue(at(j), does(j).value, l);
      var d := Pops(does(j).value, l);
      var q, r := at(j).loops[l].queue, at(j + 1).loops[l].queue;
      forall i | p - d <= i < |r| && 0 <= i
        ensures r[i] !in bad
      {
        if i < |q| - d {
          assert r[i] == q[i + d];
        } else {
          assert r[i] == Pushes(at(j), does(j).value, l)[i - (|q| - d)];
        }
      }
    }
  }

  lemma {:induction false} StaysClear(at: nat -> State, does: nat -> Option<Step>, i: nat, j: nat, l: LoopId, p: nat, bad: set<Functor>)
    requires IsRun(at, does) && i <= j && Clear(at(i), l, p, bad) && Unpushed(at, does, i, l, bad)
    ensures Clear(at(j), l, p, bad)
    decreases j - i
  {
    if i < j {
      assert PushesNone(at, does, i, l, bad);
      ClearStep(at, does, i, l, p, bad);
      StaysClear(at, does, i + 1, j, l, p, bad);
    }
  }

  /** What is no longer queued on `l` is eventually no longer there. */
  lemma {:induction false} Drains(at: nat -> State, does: nat -> Option<Step>, i: nat, l: LoopId, p: nat, bad: set<Functor>)
      returns (k: nat)
    requires IsRun(at, does) && Fair(at, does) && Sound(at)
    requires Clear(at(i), l, p, bad) && Unpushed(at, does, i, l, bad)
    ensures i <= k && Clear(at(k), l, 0, bad)
    decreases p
  {
    if p == 0 || at(i).loops[l].queue == [] {
      k := i;
    } else {
      var m := NextPop(at, does, i, l);
      StaysClear(at, does, i, m, l, p, bad);
      assert PushesNone(at, does, m, l, bad);
      ClearStep(at, does, m, l, p, bad);
      k := Drains(at, does, m + 1, l, p - 1, bad);
    }
  }

  // ---------------------------------------------------------------- out of the poller

  lemma DownHasRemoval(s: State, c: ConnId)
    requires Inv(s) && Down(s, c) && s.conns[c].index != New
    ensures Queued(s, BASE, RemoveConn(c)) || Queued(s, s.conns[c].loop, Destroy(c))
  {
    assert AnchorOk(s, c) && StateOk(s, c);
  }

  /** A queued destruction takes the connection out of its poller. */
  lemma DestroyRuns(at: nat -> State, does: nat -> Option<Step>, i: nat, c: ConnId) returns (k: nat)
    requires IsRun(at, does) && Fair(at, does) && Sound(at) && Down(at(i), c)
    requires Queued(at(i), at(i).conns[c].loop, Destroy(c))
    ensures i <= k && Gone(at(k), c)
  {
    var l := at(i).conns[c].loop;
    var p :| 0 <= p < |at(i).loops[l].queue| && at(i).loops[l].queue[p] == Destroy(c);
    k := RunsAt(at, does, i, l, p);
    StaysDownLater(at, does, i, k, c);
    assert StepTaken(at, does, k);
    DestroyedIsGone(at(k), l, c);
    k := k + 1;
  }

  lemma DestroyedIsGone(s: State, l: LoopId, c: ConnId)
    requires Enabled(s, RunFunctor(l)) && s.loops[l].queue[0] == Destroy(c) && Down(s, c)
    ensures Gone(Apply(s, RunFunctor(l)), c)
  {
    DestroyControl(Popped(s, l), c);
  }

  /** A queued removal queues the destruction. */
  lemma RemovalRuns(at: nat -> State, does: nat -> Option<Step>, i: nat, c: ConnId) returns (k: nat)
    requires IsRun(at, does) && Fair(at, does) && Sound(at) && Down(at(i), c)
    requires Queued(at(i), BASE, RemoveConn(c))
    ensures i <= k && Down(at(k), c) && Queued(at(k), at(k).conns[c].loop, Destroy(c))
  {
    var p :| 0 <= p < |at(i).loops[BASE].queue| && at(i).loops[BASE].queue[p] == RemoveConn(c);
    k := RunsAt(at, does, i, BASE, p);
    StaysDownLater(at, does, i, k, c);
    DownStep(at, does, k, c);
    RemovalQueuesDestroy(at, does, k, c);
    k := k + 1;
  }

  lemma RemovalQueuesDestroy(at: nat -> State, does: nat -> Option<Step>, k: nat, c: ConnId)
    requires IsRun(at, does) && does(k) == Some(RunFunctor(BASE)) && Known(at(k), c)
    requires Queued(at(k), BASE, RemoveConn(c)) && at(k).loops[BASE].queue[0] == RemoveConn(c)
    ensures Queued(at(k + 1), at(k).conns[c].loop, Destroy(c))
  {
    assert StepTaken(at, does, k);
    StepQueue(at(k), does(k).value, at(k).conns[c].loop);
  }

  lemma BecomesGone(at: nat -> State, does: nat -> Option<Step>, i: nat, c: ConnId) returns (k: nat)
    requires IsRun(at, does) && Fair(at, does) && Sound(at) && Down(at(i), c)
    ensures i <= k && Gone(at(k), c)
  {
    k := i;
    if at(i).conns[c].index != New {
      assert SoundAt(at, i);
      DownHasRemoval(at(i), c);
      if !Queued(at(i), at(i).conns[c].loop, Destroy(c)) {
        k := RemovalRuns(at, does, i, c);
      }
      k := DestroyRuns(at, does, k, c);
    }
  }

  // ---------------------------------------------------------------- held by nothing

  function About(c: ConnId): set<Functor> {
    {Establish(c), RemoveConn(c), Destroy(c), Shutdown(c), Notify(c)}
  }

  lemma GonePushesNone(at: nat -> State, does: nat -> Option<Step>, j: nat, l: LoopId, c: ConnId)
    requires IsRun(at, does) && Sound(at) && l in at(j).loops && Gone(at(j), c)
    ensures PushesNone(at, does, j, l, {RemoveConn(c)})
    ensures !Queued(at(j), BASE, RemoveConn(c)) ==> PushesNone(at, does, j, l, About(c))
  {
    assert SoundAt(at, j);
    if does(j).Some? && Enabled(at(j), does(j).value) {
      GonePushes(at(j), does(j).value, l, c);
    }
  }

  /** Of a connection that is gone, the queued removals run out. */
  lemma RemovalsEnd(at: nat -> State, does: nat -> Option<Step>, i: nat, c: ConnId) returns (k: nat)
    requires IsRun(at, does) && Fair(at, does) && Sound(at) && Gone(at(i), c)
    ensures i <= k && Clear(at(k), BASE, 0, {RemoveConn(c)}) && Unpushed(at, does, k, BASE, {RemoveConn(c)})
  {
    forall j: nat | i <= j
      ensures PushesNone(at, does, j, BASE, {RemoveConn(c)})
    {
      StaysDownLater(at, does, i, j, c);
      BaseIsThere(at, j);
      GonePushesNone(at, does, j, BASE, c);
    }
    BaseIsThere(at, i);
    k := Drains(at, does, i, BASE, |at(i).loops[BASE].queue|, {RemoveConn(c)});
  }

  lemma BaseIsThere(at: nat -> State, j: nat)
    requires Sound(at)
    ensures BASE in at(j).loops
  {
    assert SoundAt(at, j);
  }

  /** ... and with them all other functors about it. */
  lemma FunctorsEnd(at: nat -> State, does: nat -> Option<Step>, i: nat, c: ConnId) returns (k: nat)
    requires IsRun(at, does) && Fair(at, does) && Sound(at) && Gone(at(i), c)
    requires Clear(at(i), BASE, 0, {RemoveConn(c)}) && Unpushed(at, does, i, BASE, {RemoveConn(c)})
    ensures i <= k && Clear(at(k), at(i).conns[c].loop, 0, About(c))
    ensures Unpushed(at, does, k, at(i).conns[c].loop, About(c))
  {
    var l := at(i).conns[c].loop;
    forall j: nat | i <= j
      ensures PushesNone(at, does, j, l, About(c))
    {
      StaysDownLater(at, does, i, j, c);
      StaysClear(at, does, i, j, BASE, 0, {RemoveConn(c)});
      GonePushesNone(at, does, j, l, c);
    }
    k := Drains(at, does, i, l, |at(i).loops[l].queue|, About(c));
  }

  lemma GoneIsFree(s: State, c: ConnId)
    requires Inv(s) && Gone(s, c)
    requires Clear(s, BASE, 0, {RemoveConn(c)}) && Clear(s, s.conns[c].loop, 0, About(c))
    ensures !Held(s, c)
  {
    forall l, f | Queued(s, l, f)
      ensures f.conn != c
    {
      var i :| 0 <= i < |s.loops[l].queue| && s.loops[l].queue[i] == f;
      assert FunctorOk(s, l, s.loops[l].queue[i]);
    }
    forall l | l in s.loops && s.loops[l].current.Some?
      ensures s.loops[l].current != Some(c)
    {
      assert OnLoop(s, l, s.loops[l].current.value);
    }
    UntouchedFree(s, c);
  }

  /** A connection that is down is eventually out of its poller and its socket closed, on every
      fair run of all loops, however many close events, removals and additions to the interest
      set there are on the way. */
  lemma EventuallyClosed(at: nat -> State, does: nat -> Option<Step>, i: nat, c: ConnId)
    requires IsRun(at, does) && Fair(at, does) && Init(at(0)) && Down(at(i), c)
    ensures exists k: nat :: i <= k && Gone(at(k), c) && !at(k).conns[c].open
  {
    RunIsSound(at, does);
    var g := BecomesGone(at, does, i, c);
    var r := RemovalsEnd(at, does, g, c);
    StaysDownLater(at, does, g, r, c);
    var e := FunctorsEnd(at, does, r, c);
    assert Releases(at, does, e, c);
    var j: nat :| e <= j && (does(j) == Some(CloseSocket(c)) || !Enabled(at(j), CloseSocket(c)));
    StaysDownLater(at, does, r, j, c);
    StaysClear(at, does, r, j, BASE, 0, {RemoveConn(c)});
    StaysClear(at, does, e, j, at(r).conns[c].loop, 0, About(c));
    var k := ClosesNow(at, does, j, c);
  }

  lemma ClosesNow(at: nat -> State, does: nat -> Option<Step>, j: nat, c: ConnId) returns (k: nat)
    requires IsRun(at, does) && Sound(at) && Gone(at(j), c)
    requires Clear(at(j), BASE, 0, {RemoveConn(c)}) && Clear(at(j), at(j).conns[c].loop, 0, About(c))
    requires does(j) == Some(CloseSocket(c)) || !Enabled(at(j), CloseSocket(c))
    ensures j <= k && Gone(at(k), c) && !at(k).conns[c].open
  {
    k := j;
    if does(j) == Some(CloseSocket(c)) {
      assert StepTaken(at, does, j);
      DownStep(at, does, j, c);
      k := j + 1;
    } else {
      ClosedAlready(at, j, c);
    }
  }

  lemma ClosedAlready(at: nat -> State, j: nat, c: ConnId)
    requires Sound(at) && Gone(at(j), c) && !Enabled(at(j), CloseSocket(c))
    requires Clear(at(j), BASE, 0, {RemoveConn(c)}) && Clear(at(j), at(j).conns[c].loop, 0, About(c))
    ensures !at(j).conns[c].open
  {
    FreeAt(at, j, c);
    FreeIsClosed(at(j), c);
  }

  lemma FreeAt(at: nat -> State, j: nat, c: ConnId)
    requires Sound(at) && Gone(at(j), c)
    requires Clear(at(j), BASE, 0, {RemoveConn(c)}) && Clear(at(j), at(j).conns[c].loop, 0, About(c))
    ensures !Held(at(j), c)
  {
    assert SoundAt(at, j);
    GoneIsFree(at(j), c);
  }

  lemma FreeIsClosed(s: State, c: ConnId)
    requires Known(s, c) && !Held(s, c) && !Enabled(s, CloseSocket(c))
    ensures !s.conns[c].open
  {
  }

  // ---------------------------------------------------------------- what closes a connection

  /** A callback and its effect: a close, an error and a read at end of stream take the connection
      down, and its removal goes on from there; every other callback changes nothing here. */
  lemma CallbackEffect(s: State, l: LoopId, eof: bool)
    requires Inv(s) && Enabled(s, RunCallback(l, eof))
    ensures var t := Apply(s, RunCallback(l, eof));
            var c, cb := s.loops[l].current.value, s.loops[l].todo[0];
            if cb == CloseCb || cb == ErrorCb || (cb == ReadCb && eof) then
              && Down(t, c) && t.conns[c].events == NO_EVENTS
              && (if l == BASE then Name(c) !in t.connections && Queued(t, t.conns[c].loop, Destroy(c))
                  else Queued(t, BASE, RemoveConn(c)))
            else t == s.(loops := s.loops[l := s.loops[l].(todo := s.loops[l].todo[1..])])
  {
    StepFinds(s, RunCallback(l, eof));
    var m := PutLoop(s, l, s.loops[l].(todo := s.loops[l].todo[1..]));
    ClosingEffect(m, l, s.loops[l].current.value);
  }

  lemma ClosingEffect(s: State, l: LoopId, c: ConnId)
    requires OnLoop(s, l, c) && l in s.loops && BASE in s.loops
    ensures var t := HandleClose(s, l, c);
            && Down(t, c) && t.conns[c].events == NO_EVENTS
            && (if l == BASE then Name(c) !in t.connections && Queued(t, t.conns[c].loop, Destroy(c))
                else Queued(t, BASE, RemoveConn(c)))
  {
    MaskControl(SetState(s, c, C.KDisconnected), c, NO_EVENTS);
    var n := Masking(s, c);
    RemovalControl(n, l, c, if l == BASE then n.conns[c].loop else BASE);
  }

  /** User code's own calls: a shutdown takes a connection that is up to disconnecting and queues its
      functor on the connection's loop; a notification is queued there and changes nothing else. */
  lemma UserCallEffect(s: State, c: ConnId)
    requires Known(s, c)
    ensures Enabled(s, UserShutdown(c)) ==>
              var t := Apply(s, UserShutdown(c)); var l := s.conns[c].loop;
              && t.conns == s.conns[c := s.conns[c].(state := C.KDisconnecting)]
              && t.loops == s.loops[l := s.loops[l].(queue := s.loops[l].queue + [Shutdown(c)])]
    ensures Enabled(s, UserNotify(c)) ==>
              var t := Apply(s, UserNotify(c)); var l := s.conns[c].loop;
              t == s.(loops := s.loops[l := s.loops[l].(queue := s.loops[l].queue + [Notify(c)])])
  {
  }

  /** A move of a loop in its dispatch phase: the next event's callbacks in their order, then the
      callbacks one by one, then the next event; the functors only once no event is left. */
  lemma HandlingMove(s: State, step: Step, l: LoopId)
    requires Inv(s) && Enabled(s, step) && MovesLoop(step, l) && s.loops[l].phase.Handling?
    ensures var a, t := s.loops[l], Apply(s, step);
            l in t.loops && var b := t.loops[l];
            if a.current.Some? && a.todo != [] then
              step.RunCallback? && b.phase == a.phase && b.active == a.active && b.current == a.current && b.todo == a.todo[1..]
            else if a.current.Some? then
              b.phase == a.phase && b.active == a.active && b.current.None?
            else if a.active != [] then
              b.phase == a.phase && b.active == a.active[1..] && b.current == Some(a.active[0].conn) && b.todo == Dispatch(a.active[0].revents)
            else b.phase.Functors? && b.batch == |b.queue|
  {
    if step.RunCallback? {
      CallbackQueue(s, l, step.eof, l);
    }
    if step.BeginEvent? {
      assert OnLoop(s, l, s.loops[l].active[0].conn);
    }
  }

  lemma HandlingStep(at: nat -> State, does: nat -> Option<Step>, k: nat, l: LoopId)
    requires IsRun(at, does) && Sound(at) && Moves(does(k), l) && l in at(k).loops && at(k).loops[l].phase.Handling?
    ensures var a := at(k).loops[l];
            l in at(k + 1).loops && var b := at(k + 1).loops[l];
            if a.current.Some? && a.todo != [] then
              && does(k).value.RunCallback? && does(k).value.l == l
              && b.phase == a.phase && b.active == a.active && b.current == a.current && b.todo == a.todo[1..]
            else if a.current.Some? then
              b.phase == a.phase && b.active == a.active && b.current.None?
            else if a.active != [] then
              b.phase == a.phase && b.active == a.active[1..] && b.current == Some(a.active[0].conn) && b.todo == Dispatch(a.active[0].revents)
            else b.phase.Functors? && b.batch == |b.queue|
  {
    assert StepTaken(at, does, k) && SoundAt(at, k);
    HandlingMove(at(k), does(k).value, l);
  }

  /** Every active event is begun when its turn comes, with the callbacks its flags ask for. */
  lemma {:induction false} EventBegins(at: nat -> State, does: nat -> Option<Step>, i: nat, l: LoopId, p: nat) returns (k: nat)
    requires IsRun(at, does) && Fair(at, does) && Sound(at)
    requires l in at(i).loops && at(i).loops[l].phase.Handling? && p < |at(i).loops[l].active|
    ensures i <= k && l in at(k).loops && at(k).loops[l].phase.Handling?
    ensures at(k).loops[l].current == Some(at(i).loops[l].active[p].conn)
    ensures at(k).loops[l].todo == Dispatch(at(i).loops[l].active[p].revents)
    decreases Work(at(i).loops[l])
  {
    var m := NextMove(at, does, i, l);
    HandlingStep(at, does, m, l);
    k := m + 1;
    if at(m).loops[l].current.Some? {
      k := EventBegins(at, does, k, l, p);
    } else if p > 0 {
      DispatchLength(at(m).loops[l].active[0].revents);
      k := EventBegins(at, does, k, l, p - 1);
    }
  }

  lemma DispatchLength(r: Revents)
    ensures |Dispatch(r)| <= 4
  {
  }

  /** Every callback of the event being handled is run when its turn comes. */
  lemma {:induction false} CallbackRuns(at: nat -> State, does: nat -> Option<Step>, i: nat, l: LoopId, q: nat) returns (k: nat)
    requires IsRun(at, does) && Fair(at, does) && Sound(at)
    requires l in at(i).loops && at(i).loops[l].phase.Handling? && at(i).loops[l].current.Some? && q < |at(i).loops[l].todo|
    ensures i <= k && Moves(does(k), l) && does(k).value.RunCallback? && l in at(k).loops
    ensures at(k).loops[l].current == at(i).loops[l].current
    ensures at(k).loops[l].todo != [] && at(k).loops[l].todo[0] == at(i).loops[l].todo[q]
    decreases q
  {
    k := NextMove(at, does, i, l);
    HandlingStep(at, does, k, l);
    if q > 0 {
      k := CallbackRuns(at, does, k + 1, l, q - 1);
    }
  }

  /** From moment `i` on every read of `c` by its loop meets the end of the stream. */
  ghost predicate AtEnd(at: nat -> State, does: nat -> Option<Step>, i: nat, l: LoopId, c: ConnId) {
    forall k: nat, eof: bool | i <= k && does(k) == Some(RunCallback(l, eof)) && ReadsNow(at(k), l, c) :: eof
  }

  predicate ReadsNow(s: State, l: LoopId, c: ConnId) {
    l in s.loops && s.loops[l].current == Some(c) && s.loops[l].todo != [] && s.loops[l].todo[0] == ReadCb
  }

  /** The flags of an event that must end its connection. */
  predicate EndsConnection(r: Revents, atEnd: bool) {
    r.err || (r.hup && !r.in_ && !r.pri) || ((r.in_ || r.pri) && atEnd)
  }

  /** An event reported for a connection with an error, with a hang-up and nothing to read, or with
      the end of the stream to read, takes the connection down ... */
  lemma EventTakesDown(at: nat -> State, does: nat -> Option<Step>, i: nat, l: LoopId, p: nat) returns (k: nat)
    requires IsRun(at, does) && Fair(at, does) && Sound(at)
    requires l in at(i).loops && at(i).loops[l].phase.Handling? && p < |at(i).loops[l].active|
    requires var e := at(i).loops[l].active[p]; EndsConnection(e.revents, AtEnd(at, does, i, l, e.conn))
    ensures i <= k && Down(at(k), at(i).loops[l].active[p].conn)
  {
    var e := at(i).loops[l].active[p];
    var b := EventBegins(at, does, i, l, p);
    var q := EndingCallback(e.revents);
    k := CallbackRuns(at, does, b, l, q);
    var eof := does(k).value.eof;
    assert does(k) == Some(RunCallback(l, eof));
    assert Dispatch(e.revents)[q] == ReadCb ==> ReadsNow(at(k), l, e.conn);
    CallbackTakesDown(at, does, k, l, eof);
    k := k + 1;
  }

  /** Which of the callbacks ends the connection. */
  lemma EndingCallback(r: Revents) returns (q: nat)
    requires EndsConnection(r, true)
    ensures q < |Dispatch(r)|
    ensures Dispatch(r)[q] == if r.err then ErrorCb else if r.hup && !r.in_ && !r.pri then CloseCb else ReadCb
  {
    DispatchOrder(r);
    var cb := if r.err then ErrorCb else if r.hup && !r.in_ && !r.pri then CloseCb else ReadCb;
    q :| q < |Dispatch(r)| && Dispatch(r)[q] == cb;
  }

  lemma CallbackTakesDown(at: nat -> State, does: nat -> Option<Step>, k: nat, l: LoopId, eof: bool)
    requires IsRun(at, does) && Sound(at) && does(k) == Some(RunCallback(l, eof))
    requires l in at(k).loops && at(k).loops[l].current.Some? && at(k).loops[l].todo != []
    requires var cb := at(k).loops[l].todo[0]; cb == CloseCb || cb == ErrorCb || (cb == ReadCb && eof)
    ensures Down(at(k + 1), at(k).loops[l].current.value)
  {
    assert StepTaken(at, does, k) && SoundAt(at, k);
    CallbackEffect(at(k), l, eof);
  }

  /** ... and so, in every fair run, leads to its release: what the kernel reports for a channel
      when `poll` returns is dispatched to the connection it belongs to, and an error, a hang-up
      or the end of its stream ends in a closed socket out of every poller. */
  lemma ReportedEndCloses(at: nat -> State, does: nat -> Option<Step>, i: nat, l: LoopId, reported: seq<(Fd, Revents)>, p: nat)
    requires IsRun(at, does) && Fair(at, does) && Init(at(0))
    requires does(i) == Some(Poll(l, reported)) && Enabled(at(i), Poll(l, reported)) && p < |reported|
    requires var c := at(i).loops[l].kernel[reported[p].0].channel;
             EndsConnection(reported[p].1, AtEnd(at, does, i, l, c))
    ensures var c := at(i).loops[l].kernel[reported[p].0].channel;
            exists k: nat :: i <= k && Gone(at(k), c) && !at(k).conns[c].open
  {
    RunIsSound(at, does);
    assert StepTaken(at, does, i);
    var c := at(i).loops[l].kernel[reported[p].0].channel;
    assert at(i + 1).loops[l].active[p] == Event(c, reported[p].1);
    assert AtEnd(at, does, i, l, c) ==> AtEnd(at, does, i + 1, l, c);
    var k := EventTakesDown(at, does, i + 1, l, p);
    EventuallyClosed(at, does, k, c);
  }

  // ---------------------------------------------------------------- every accepted connection comes up

  /** The connection is up on its loop: connected, watched and reading. */
  ghost predicate Up(s: State, c: ConnId, fd: Fd, l: LoopId) {
    && Known(s, c) && s.conns[c].fd == fd && s.conns[c].loop == l
    && s.conns[c].state == C.KConnected && s.conns[c].index == Added && s.conns[c].events.read
  }

  /** A connection handed to an io loop is established there, in every fair run. */
  lemma AcceptedIsEstablished(at: nat -> State, does: nat -> Option<Step>, i: nat, fd: Fd, l: LoopId) returns (k: nat)
    requires IsRun(at, does) && Fair(at, does) && Init(at(0)) && does(i) == Some(Accept(fd, l))
    ensures i <= k && Up(at(k), at(i).nextConnId, fd, l)
  {
    if l == BASE {
      AcceptEstablishes(at, does, i, fd);
      k := i + 1;
    } else {
      RunIsSound(at, does);
      AcceptQueues(at, does, i, fd, l);
      k := QueuedIsEstablished(at, does, i + 1, fd, l, at(i).nextConnId);
    }
  }

  lemma QueuedIsEstablished(at: nat -> State, does: nat -> Option<Step>, i: nat, fd: Fd, l: LoopId, c: ConnId) returns (k: nat)
    requires IsRun(at, does) && Fair(at, does) && Sound(at) && l in at(i).loops
    requires Known(at(i), c) && at(i).conns[c].fd == fd && at(i).conns[c].loop == l
    requires at(i).loops[l].queue != [] && at(i).loops[l].queue[|at(i).loops[l].queue| - 1] == Establish(c)
    ensures i <= k && Up(at(k), c, fd, l)
  {
    k := RunsAt(at, does, i, l, |at(i).loops[l].queue| - 1);
    StaysDownLater(at, does, i, k, c);
    EstablishRuns(at, does, k, l, c);
    k := k + 1;
  }

  lemma AcceptEstablishes(at: nat -> State, does: nat -> Option<Step>, i: nat, fd: Fd)
    requires IsRun(at, does) && does(i) == Some(Accept(fd, BASE))
    ensures Up(at(i + 1), at(i).nextConnId, fd, BASE)
  {
    assert StepTaken(at, does, i);
    EstablishedUp(Accepted(at(i), fd, BASE), at(i).nextConnId);
  }

  lemma AcceptQueues(at: nat -> State, does: nat -> Option<Step>, i: nat, fd: Fd, l: LoopId)
    requires IsRun(at, does) && l != BASE && does(i) == Some(Accept(fd, l))
    ensures var c, t := at(i).nextConnId, at(i + 1);
            && Known(t, c) && t.conns[c].fd == fd && t.conns[c].loop == l
            && t.loops[l].queue != [] && t.loops[l].queue[|t.loops[l].queue| - 1] == Establish(c)
  {
    assert StepTaken(at, does, i);
  }

  lemma EstablishRuns(at: nat -> State, does: nat -> Option<Step>, k: nat, l: LoopId, c: ConnId)
    requires IsRun(at, does) && Sound(at) && does(k) == Some(RunFunctor(l))
    requires l in at(k).loops && at(k).loops[l].queue != [] && at(k).loops[l].queue[0] == Establish(c) && Known(at(k), c)
    ensures Up(at(k + 1), c, at(k).conns[c].fd, at(k).conns[c].loop)
  {
    assert StepTaken(at, does, k);
    NewAt(at, k, l, c);
    EstablishedUp(Popped(at(k), l), c);
  }

  lemma NewAt(at: nat -> State, k: nat, l: LoopId, c: ConnId)
    requires Sound(at) && l in at(k).loops && at(k).loops[l].queue != [] && at(k).loops[l].queue[0] == Establish(c)
    ensures Known(at(k), c) && at(k).conns[c].index == New
  {
    assert SoundAt(at, k);
    HeadEstablish(at(k), l, c);
  }

  lemma HeadEstablish(s: State, l: LoopId, c: ConnId)
    requires Inv(s) && l in s.loops && s.loops[l].queue != [] && s.loops[l].queue[0] == Establish(c)
    ensures Known(s, c) && s.conns[c].index == New
  {
    assert FunctorOk(s, l, s.loops[l].queue[0]);
    assert StateOk(s, c);
  }

  lemma EstablishedUp(s: State, c: ConnId)
    requires Known(s, c) && !s.conns[c].index.Added?
    ensures Up(ConnectEstablished(s, c), c, s.conns[c].fd, s.conns[c].loop)
  {
    MaskControl(SetState(s, c, C.KConnected), c, s.conns[c].events.(read := true));
  }
}

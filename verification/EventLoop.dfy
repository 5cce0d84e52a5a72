/** The event loop object, as the loop thread runs it.  Each method is proved to be a run of
    `EventLoopSpec` steps, so the protocol proved there covers it. */
module EventLoops {
  import opened Basics
  import opened EventLoopSpec

  class EventLoop {
    var quit: bool
    var callingPendingFunctors: bool
    var pendingFunctors: seq<Fid>
    var activeChannels: seq<Handler>
    var counter: nat
    // the loop thread's position and the functors it has in hand
    ghost var phase: Phase
    ghost var batch: seq<Fid>
    ghost var running: Option<Fid>
    ghost var selfWaking: bool
    ghost var waking: set<Tid>
    ghost var executed: seq<Fid>
    ghost var enqueued: seq<Fid>

    ghost function View(): State
      reads this
    {
      State(phase, quit, callingPendingFunctors, pendingFunctors, batch, running, activeChannels,
            counter, waking, selfWaking, executed, enqueued)
    }

    constructor ()
      ensures BeforeLoop(View()) && Inv(View()) && View().pending == [] && quit
    {
      quit, callingPendingFunctors := true, false;
      pendingFunctors, activeChannels, counter := [], [], 0;
      phase, batch, running, selfWaking, waking := Idle, [], None, false, {};
      executed, enqueued := [], [];
    }

    method Wakeup()
      requires counter <= COUNTER_MAX
      modifies this`counter
      ensures counter == WriteCounter(old(counter)) && 0 < counter <= COUNTER_MAX
    {
      if counter < COUNTER_MAX {
        counter := counter + 1;
      }
    }

    method HandleRead()
      modifies this`counter
      ensures counter == 0
    {
      counter := 0;
    }

    /** `queueInLoop`, called by another thread or by the loop thread itself, which needs no
        wakeup unless it is calling functors.  Called by another thread, the push and the
        wakeup are two steps; here nothing happens between them. */
    method QueueInLoop(caller: Option<Tid>, f: Fid)
      requires if caller.Some? then Enabled(View(), Push(caller.value, f)) else Enabled(View(), SelfPush(f))
      requires counter <= COUNTER_MAX
      modifies this`pendingFunctors, this`enqueued, this`counter
      ensures Reaches(old(View()), View())
      ensures pendingFunctors == old(pendingFunctors) + [f] && counter <= COUNTER_MAX
      ensures if caller.Some? || callingPendingFunctors then counter > 0 else counter == old(counter)
    {
      ghost var s := View();
      pendingFunctors, enqueued := pendingFunctors + [f], enqueued + [f];
      ghost var push := if caller.Some? then Push(caller.value, f) else SelfPush(f);
      ghost var m := Apply(s, push);
      ReachesStep(s, s, push);
      if caller.Some? || callingPendingFunctors {
        Wakeup();
        ghost var write := if caller.Some? then Write(caller.value) else SelfWrite;
        ReachesStep(s, m, write);
        assert View().waking == Apply(m, write).waking;
      }
    }

    /** `quit`: on the loop thread it needs no wakeup, the flag is tested before the next wait. */
    method Quit(caller: Option<Tid>)
      requires if caller.Some? then Enabled(View(), Step.Quit(caller.value)) else Enabled(View(), SelfQuit)
      requires counter <= COUNTER_MAX
      modifies this`quit, this`counter
      ensures Reaches(old(View()), View()) && quit
      ensures if caller.Some? then 0 < counter <= COUNTER_MAX else counter == old(counter)
    {
      ghost var s := View();
      quit := true;
      ghost var ask := if caller.Some? then Step.Quit(caller.value) else SelfQuit;
      ghost var m := Apply(s, ask);
      ReachesStep(s, s, ask);
      if caller.Some? {
        Wakeup();
        ReachesStep(s, m, Write(caller.value));
        assert View().waking == Apply(m, Write(caller.value)).waking;
      }
    }

    /** What the first `n` active channels queue, if the handler of each queues its list; the
        loop's own handler only reads the eventfd. */
    static function QueuedByHandlers(active: seq<Handler>, queues: seq<seq<Fid>>, n: nat): seq<Fid>
      requires n <= |active| == |queues|
    {
      if n == 0 then [] else
        QueuedByHandlers(active, queues, n - 1) + if active[n - 1].Other? then queues[n - 1] else []
    }

    /** The dispatch loop over the active channels: if the loop's own channel was reported its
        handler resets the eventfd, before any functor is taken; what the other handlers queue
        on their loop needs no wakeup and waits for the functor phase. */
    method HandleActive(queues: seq<seq<Fid>>)
      requires phase.Handling? && !selfWaking && !callingPendingFunctors && |queues| == |activeChannels|
      requires counter <= COUNTER_MAX
      modifies this`activeChannels, this`counter, this`pendingFunctors, this`enqueued
      ensures Reaches(old(View()), View()) && activeChannels == [] && counter <= COUNTER_MAX
      ensures counter == if Handler.Wakeup in old(activeChannels) then 0 else old(counter)
      ensures pendingFunctors == old(pendingFunctors) + QueuedByHandlers(old(activeChannels), queues, |queues|)
    {
      ghost var s := View();
      ReachesRefl(s);
      var i := 0;
      while activeChannels != []
        invariant i <= |queues| && activeChannels == s.active[i..]
        invariant Reaches(s, View())
        invariant counter == if Handler.Wakeup in s.active[..i] then 0 else s.counter
        invariant pendingFunctors == s.pending + QueuedByHandlers(s.active, queues, i)
        decreases |activeChannels|
        modifies this`activeChannels, this`counter, this`pendingFunctors, this`enqueued
      {
        assert s.active[..i + 1] == s.active[..i] + [activeChannels[0]];
        HandleEvent(s, queues[i]);
        i := i + 1;
      }
      assert s.active[..i] == s.active;
    }

    /** The handler of the first active channel. */
    method HandleEvent(ghost s: State, queues: seq<Fid>)
      requires phase.Handling? && !selfWaking && !callingPendingFunctors && activeChannels != []
      requires Reaches(s, View()) && counter <= COUNTER_MAX
      modifies this`activeChannels, this`counter, this`pendingFunctors, this`enqueued
      ensures Reaches(s, View()) && activeChannels == old(activeChannels)[1..]
      ensures counter == if old(activeChannels)[0].Wakeup? then 0 else old(counter)
      ensures pendingFunctors == old(pendingFunctors) + if old(activeChannels)[0].Other? then queues else []
    {
      if activeChannels[0] == Handler.Wakeup {
        ReachesStep(s, View(), Handle);
        HandleRead();
      } else {
        QueueAll(s, queues);
        ReachesStep(s, View(), Handle);
      }
      activeChannels := activeChannels[1..];
    }

    /** What a batch queues when each functor `f` queues `prog(f)`. */
    static function QueuedBy(prog: Fid -> seq<Fid>, fs: seq<Fid>): seq<Fid> {
      if fs == [] then [] else QueuedBy(prog, fs[..|fs| - 1]) + prog(fs[|fs| - 1])
    }

    /** `doPendingFunctors`: exactly the functors that were pending run, in order, each once,
        even if every one of them queues itself again; what they queue is left pending, with
        the wakeup that the next wait needs. */
    method DoPendingFunctors(prog: Fid -> seq<Fid>)
      requires Inv(View()) && Enabled(View(), Raise) && counter <= COUNTER_MAX
      modifies this`batch, this`running, this`executed, this`pendingFunctors, this`enqueued, this`counter
      modifies this`callingPendingFunctors, this`phase
      ensures Reaches(old(View()), View())
      ensures phase.LoopTop? && Inv(View()) && counter <= COUNTER_MAX
      ensures executed == old(executed) + old(pendingFunctors)
      ensures pendingFunctors == QueuedBy(prog, old(pendingFunctors))
      ensures pendingFunctors != [] ==> counter > 0
    {
      ghost var s := View();
      var functors := TakeFunctors();
      ghost var m := View();
      RunBatch(functors, prog);
      ReachesTrans(s, m, View());
      LowerFlag(s);
    }

    method LowerFlag(ghost s: State)
      requires Reaches(s, View()) && Enabled(View(), Lower) && !selfWaking && activeChannels == []
      requires pendingFunctors != [] ==> counter > 0
      modifies this`callingPendingFunctors, this`phase
      ensures Reaches(s, View()) && phase.LoopTop? && Inv(View())
    {
      ReachesStep(s, View(), Lower);
      callingPendingFunctors, phase := false, LoopTop;
    }

    /** The loop over the swapped-out functors. */
    method RunBatch(functors: seq<Fid>, prog: Fid -> seq<Fid>)
      requires phase.Running? && callingPendingFunctors && running.None? && batch == functors
      requires !selfWaking && counter <= COUNTER_MAX && pendingFunctors == []
      modifies this`batch, this`running, this`executed, this`pendingFunctors, this`enqueued, this`counter
      ensures Reaches(old(View()), View()) && running.None? && batch == [] && counter <= COUNTER_MAX
      ensures executed == old(executed) + functors && pendingFunctors == QueuedBy(prog, functors)
      ensures pendingFunctors != [] ==> counter > 0
    {
      ghost var s := View();
      ReachesRefl(s);
      var i := 0;
      while i < |functors|
        invariant 0 <= i <= |functors|
        invariant Reaches(s, View())
        invariant running.None? && batch == functors[i..] && counter <= COUNTER_MAX
        invariant executed == s.executed + functors[..i] && pendingFunctors == QueuedBy(prog, functors[..i])
        invariant pendingFunctors != [] ==> counter > 0
      {
        ghost var m := View();
        RunFunctor(functors[i], prog(functors[i]));
        ReachesTrans(s, m, View());
        assert functors[..i + 1][..i] == functors[..i];
        i := i + 1;
      }
      assert functors[..i] == functors;
    }

    /** Raising the flag and the swap under the mutex. */
    method TakeFunctors() returns (functors: seq<Fid>)
      requires Enabled(View(), Raise)
      modifies this`pendingFunctors, this`batch, this`phase, this`callingPendingFunctors
      ensures Reaches(old(View()), View())
      ensures phase.Running? && callingPendingFunctors && pendingFunctors == []
      ensures functors == batch == old(pendingFunctors)
    {
      ghost var s := View();
      ReachesStep(s, s, Raise);
      callingPendingFunctors, phase := true, PreSwap;
      ReachesStep(s, View(), Swap);
      functors := pendingFunctors;
      pendingFunctors, batch, phase := [], functors, Running;
    }

    /** One functor: it queues its list and returns. */
    method RunFunctor(f: Fid, queues: seq<Fid>)
      requires phase.Running? && callingPendingFunctors && running.None? && batch != [] && batch[0] == f
      requires !selfWaking && counter <= COUNTER_MAX
      modifies this`batch, this`running, this`executed, this`pendingFunctors, this`enqueued, this`counter
      ensures Reaches(old(View()), View())
      ensures running.None? && batch == old(batch)[1..] && executed == old(executed) + [f]
      ensures pendingFunctors == old(pendingFunctors) + queues && counter <= COUNTER_MAX
      ensures queues != [] || old(counter) > 0 ==> counter > 0
    {
      ghost var s := View();
      ReachesStep(s, s, Begin);
      running, batch := Some(f), batch[1..];
      QueueAll(s, queues);
      ReachesStep(s, View(), End);
      running, executed := None, executed + [f];
    }

    /** The calls to `queueInLoop` that a running handler or functor makes. */
    method QueueAll(ghost s: State, queues: seq<Fid>)
      requires Reaches(s, View()) && counter <= COUNTER_MAX
      requires InUserCode(View()) && !selfWaking
      modifies this`pendingFunctors, this`enqueued, this`counter
      ensures Reaches(s, View()) && counter <= COUNTER_MAX
      ensures pendingFunctors == old(pendingFunctors) + queues
      ensures if callingPendingFunctors && queues != [] then counter > 0 else counter == old(counter)
    {
      ghost var before := pendingFunctors;
      var k := 0;
      while k < |queues|
        invariant 0 <= k <= |queues|
        invariant Reaches(s, View())
        invariant pendingFunctors == before + queues[..k] && counter <= COUNTER_MAX
        invariant if callingPendingFunctors && k > 0 then counter > 0 else counter == old(counter)
        modifies this`pendingFunctors, this`enqueued, this`counter
      {
        ghost var m := View();
        QueueInLoop(None, queues[k]);
        ReachesTrans(s, m, View());
        assert queues[..k + 1] == queues[..k] + [queues[k]];
        k := k + 1;
      }
      assert queues[..k] == queues;
    }
  }
}

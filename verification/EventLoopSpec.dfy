/** The event loop's wakeup protocol (src/EventLoop.cc) as a step relation.

    One loop thread and any number of other threads.  Steps are as fine as the code's
    atomicity: the push under the mutex and the later eventfd write are separate, the quit flag
    and its wakeup are separate, raising `callingPendingFunctors_` and the swap are separate.
    Reading the eventfd resets its counter to 0, since it is not a semaphore one. */
module EventLoopSpec {
  import opened Basics

  type Fid = nat
  type Tid = nat

  /** The largest value an eventfd counter can hold; a write that would exceed it fails. */
  const COUNTER_MAX: nat := 0xFFFF_FFFF_FFFF_FFFE

  /** Where the loop thread is.  `Idle` is before `loop()`. */
  datatype Phase = Idle | LoopTop | Polling | Handling | PreSwap | Running | Finished

  /** An active channel: the loop's own wakeup channel or any other. */
  datatype Handler = Wakeup | Other

  datatype State = State(
    phase: Phase,
    quit: bool,
    calling: bool,
    pending: seq<Fid>,          // pendingFunctors_
    batch: seq<Fid>,            // what is left of the swapped-out vector
    running: Option<Fid>,       // the functor being executed
    active: seq<Handler>,       // what is left of activeChannels_
    counter: nat,               // the eventfd
    waking: set<Tid>,           // threads that pushed or set quit_ and have not written yet
    selfWaking: bool,           // the same for the loop thread
    executed: seq<Fid>,         // history
    enqueued: seq<Fid>)

  datatype Step =
    | Push(t: Tid, f: Fid)      // another thread, queueInLoop up to the unlock
    | Quit(t: Tid)              // another thread, quit() up to the store
    | Write(t: Tid)             // ... and its wakeup()
    | SelfPush(f: Fid)          // the loop thread, queueInLoop up to the test
    | SelfWrite                 // ... and its wakeup(), only when calling functors
    | SelfQuit
    | Enter                     // loop(): looping_ = true; quit_ = false
    | Test                      // while(!quit_) and clear()
    | PollReturn(ready: seq<Handler>)
    | Handle                    // the first active channel's handleEvent returns
    | Raise                     // callingPendingFunctors_ = true
    | Swap
    | Begin                     // the next functor starts
    | End                       // ... and returns
    | Lower                     // callingPendingFunctors_ = false

  function WriteCounter(c: nat): nat {
    if c < COUNTER_MAX then c + 1 else c
  }

  /** The loop thread is executing user code and may call into the loop. */
  predicate InUserCode(s: State) {
    s.phase.Idle? || (s.phase.Handling? && s.active != [] && s.active[0].Other?) || (s.phase.Running? && s.running.Some?)
  }

  predicate Enabled(s: State, step: Step) {
    match step
    case Push(t, _) => t !in s.waking
    case Quit(t) => t !in s.waking
    case Write(t) => t in s.waking
    case SelfPush(_) => InUserCode(s) && !s.selfWaking
    case SelfWrite => s.selfWaking
    case SelfQuit => InUserCode(s) && !s.selfWaking
    case Enter => s.phase.Idle? && !s.selfWaking
    case Test => s.phase.LoopTop?
    case PollReturn(ready) => s.phase.Polling? && (Wakeup in ready ==> s.counter > 0)
    case Handle => s.phase.Handling? && s.active != [] && !s.selfWaking
    case Raise => s.phase.Handling? && s.active == []
    case Swap => s.phase.PreSwap?
    case Begin => s.phase.Running? && s.running.None? && s.batch != []
    case End => s.phase.Running? && s.running.Some? && !s.selfWaking
    case Lower => s.phase.Running? && s.running.None? && s.batch == []
  }

  function Apply(s: State, step: Step): State
    requires Enabled(s, step)
  {
    match step
    case Push(t, f) => s.(pending := s.pending + [f], enqueued := s.enqueued + [f], waking := s.waking + {t})
    case Quit(t) => s.(quit := true, waking := s.waking + {t})
    case Write(t) => s.(counter := WriteCounter(s.counter), waking := s.waking - {t})
    case SelfPush(f) => s.(pending := s.pending + [f], enqueued := s.enqueued + [f], selfWaking := s.calling)
    case SelfWrite => s.(counter := WriteCounter(s.counter), selfWaking := false)
    case SelfQuit => s.(quit := true)
    case Enter => s.(phase := LoopTop, quit := false)
    case Test => s.(phase := if s.quit then Finished else Polling)
    case PollReturn(ready) => s.(phase := Handling, active := ready)
    case Handle => s.(counter := if s.active[0].Wakeup? then 0 else s.counter, active := s.active[1..])
    case Raise => s.(phase := PreSwap, calling := true)
    case Swap => s.(phase := Running, batch := s.pending, pending := [])
    case Begin => s.(running := Some(s.batch[0]), batch := s.batch[1..])
    case End => s.(executed := s.executed + [s.running.value], running := None)
    case Lower => s.(phase := LoopTop, calling := false)
  }

  predicate Runnable(s: State, steps: seq<Step>)
    decreases steps
  {
    steps == [] || (Enabled(s, steps[0]) && Runnable(Apply(s, steps[0]), steps[1..]))
  }

  function Run(s: State, steps: seq<Step>): State
    requires Runnable(s, steps)
    decreases steps
  {
    if steps == [] then s else Run(Apply(s, steps[0]), steps[1..])
  }

  lemma {:induction false} RunAppend(s: State, a: seq<Step>, b: seq<Step>)
    requires Runnable(s, a) && Runnable(Run(s, a), b)
    ensures Runnable(s, a + b) && Run(s, a + b) == Run(Run(s, a), b)
    decreases a
  {
    if a == [] {
      assert a + b == b;
    } else {
      RunAppend(Apply(s, a[0]), a[1..], b);
      assert (a + b)[1..] == a[1..] + b;
    }
  }

  /** Some run leads from `s` to `r`. */
  ghost predicate Reaches(s: State, r: State) {
    exists steps :: Runnable(s, steps) && Run(s, steps) == r
  }

  lemma ReachesRefl(s: State)
    ensures Reaches(s, s)
  {
    assert Runnable(s, []) && Run(s, []) == s;
  }

  lemma ReachesStep(s: State, m: State, step: Step)
    requires s == m || Reaches(s, m)
    requires Enabled(m, step)
    ensures Reaches(s, Apply(m, step))
  {
    assert Runnable(s, []) && Run(s, []) == s;
    var a :| Runnable(s, a) && Run(s, a) == m;
    var one := [step];
    assert one[1..] == [];
    var r := Apply(m, step);
    assert Runnable(r, one[1..]) && Run(r, one[1..]) == r;
    assert Runnable(m, one);
    assert Run(m, one) == r;
    RunAppend(s, a, one);
  }

  lemma ReachesTrans(s: State, m: State, r: State)
    requires Reaches(s, m) && Reaches(m, r)
    ensures Reaches(s, r)
  {
    var a :| Runnable(s, a) && Run(s, a) == m;
    var b :| Runnable(m, b) && Run(m, b) == r;
    RunAppend(s, a, b);
  }

  // ---------------------------------------------------------------- no lost wakeup

  /** Something will make `epoll_wait` return: the counter is up, or a write is on its way. */
  predicate WakeupDue(s: State) {
    s.counter > 0 || s.waking != {} || s.selfWaking
  }

  /** Blocked in `poll` with work or a quit request and nothing that would end the wait. */
  predicate Lost(s: State) {
    s.phase.Polling? && (s.pending != [] || s.quit) && !WakeupDue(s)
  }

  /** What the phases say about the loop thread's other state.  It holds before `loop()` and in
      every run of it, whatever was queued by whom. */
  predicate Shape(s: State) {
    && (s.calling <==> s.phase.PreSwap? || s.phase.Running?)
    && (s.phase.Handling? || s.active == [])
    && (s.phase.Running? || (s.batch == [] && s.running.None?))
    && (s.selfWaking ==> s.phase.Running? && s.running.Some?)
    && (s.phase.Polling? ==> s.quit ==> WakeupDue(s))
  }

  lemma StepKeepsShape(s: State, step: Step)
    requires Shape(s) && Enabled(s, step)
    ensures Shape(Apply(s, step))
  {
  }

  /** Waiting work is covered whenever the next thing the loop does to it may be to sleep. */
  predicate Inv(s: State) {
    && Shape(s)
    && (s.phase.LoopTop? || s.phase.Polling? || s.phase.Running? ==> s.pending != [] ==> WakeupDue(s))
  }

  lemma StepKeepsInv(s: State, step: Step)
    requires Inv(s) && Enabled(s, step)
    requires step.Enter? ==> s.pending == [] || WakeupDue(s)
    ensures Inv(Apply(s, step))
  {
  }

  /** A state before `loop()`: nothing active, nothing running. */
  predicate BeforeLoop(s: State) {
    s.phase.Idle? && !s.calling && s.active == [] && s.batch == [] && s.running.None? && !s.selfWaking
  }

  /** Before `loop()` is entered nothing can be lost, and once past it the phase never returns. */
  lemma {:induction false} RunKeepsInv(s: State, steps: seq<Step>)
    requires Inv(s) && !s.phase.Idle? && Runnable(s, steps)
    ensures Inv(Run(s, steps)) && !Run(s, steps).phase.Idle?
    decreases steps
  {
    if steps != [] {
      StepKeepsInv(s, steps[0]);
      RunKeepsInv(Apply(s, steps[0]), steps[1..]);
    }
  }

  /** No lost wakeup: from entry on, in every interleaving, work that is waiting while the loop
      is blocked has a wakeup pending or imminent, provided it was so on entry. */
  lemma NoLostWakeup(s: State, steps: seq<Step>)
    requires BeforeLoop(s) && (s.pending == [] || WakeupDue(s))
    requires Runnable(Apply(s, Enter), steps)
    ensures !Lost(Run(Apply(s, Enter), steps))
  {
    StepKeepsInv(s, Enter);
    RunKeepsInv(Apply(s, Enter), steps);
  }

  /** The condition on entry is exact: without it the very first wait is a lost wakeup. */
  lemma EntryConditionExact(s: State)
    requires BeforeLoop(s)
    ensures (forall steps | Runnable(Apply(s, Enter), steps) :: !Lost(Run(Apply(s, Enter), steps)))
            <==> (s.pending == [] || WakeupDue(s))
  {
    var e := Apply(s, Enter);
    if s.pending == [] || WakeupDue(s) {
      forall steps | Runnable(e, steps)
        ensures !Lost(Run(e, steps))
      {
        NoLostWakeup(s, steps);
      }
    } else {
      var p := Apply(e, Test);
      assert Runnable(p, []) && Run(p, []) == p;
      var steps := [Test];
      assert steps[1..] == [];
      assert Runnable(e, steps) && Run(e, steps) == p;
      assert Lost(p);
    }
  }

  // ---------------------------------------------------------------- functors run once, in order

  function Current(s: State): seq<Fid> {
    if s.running.Some? then [s.running.value] else []
  }

  /** Every functor ever queued, from the first executed to the last still waiting. */
  function Everything(s: State): seq<Fid> {
    s.executed + Current(s) + s.batch + s.pending
  }

  lemma StepKeepsOrder(s: State, step: Step)
    requires Shape(s) && Enabled(s, step) && Everything(s) == s.enqueued
    ensures Everything(Apply(s, step)) == Apply(s, step).enqueued
  {
    var r := Apply(s, step);
    match step
    case Push(_, f) => assert Everything(r) == Everything(s) + [f];
    case SelfPush(f) => assert Everything(r) == Everything(s) + [f];
    case Swap => assert Everything(r) == Everything(s);
    case Begin => assert [s.batch[0]] + s.batch[1..] == s.batch; assert Everything(r) == Everything(s);
    case End => assert Everything(r) == Everything(s);
    case _ =>
  }

  /** Functors run exactly once, in the order they were queued. */
  lemma {:induction false} ExactlyOnceInOrder(s: State, steps: seq<Step>)
    requires Shape(s) && Everything(s) == s.enqueued && Runnable(s, steps)
    ensures Everything(Run(s, steps)) == Run(s, steps).enqueued
    ensures Run(s, steps).executed <= Run(s, steps).enqueued
    decreases steps
  {
    if steps == [] {
      assert Everything(s) == s.executed + (Current(s) + s.batch + s.pending);
    } else {
      StepKeepsOrder(s, steps[0]);
      StepKeepsShape(s, steps[0]);
      ExactlyOnceInOrder(Apply(s, steps[0]), steps[1..]);
    }
  }

  predicate IsSuffix(a: seq<Fid>, b: seq<Fid>) {
    |a| <= |b| && a == b[|b| - |a|..]
  }

  lemma BatchStep(s: State, step: Step)
    requires s.phase.Running? && Enabled(s, step) && !step.Lower?
    ensures Apply(s, step).phase.Running?
    ensures Apply(s, step).batch == s.batch || (s.batch != [] && Apply(s, step).batch == s.batch[1..])
    ensures Apply(s, step).pending == s.pending || Apply(s, step).pending == s.pending + [step.f]
  {
  }

  lemma BatchShrinks(s: State, step: Step)
    requires s.phase.Running? && Enabled(s, step) && !step.Lower?
    ensures IsSuffix(Apply(s, step).batch, s.batch) && s.pending <= Apply(s, step).pending
  {
    BatchStep(s, step);
  }

  lemma SuffixTrans(a: seq<Fid>, b: seq<Fid>, c: seq<Fid>)
    requires IsSuffix(a, b) && IsSuffix(b, c)
    ensures IsSuffix(a, c)
  {
    DropDrop(c, |c| - |b|, |b| - |a|);
  }

  /** Whatever is queued while a batch runs waits for a later one: within the running phase the
      batch is only ever consumed from the front, and the pending functors only grow. */
  lemma {:induction false} BatchOnlyShrinks(s: State, steps: seq<Step>)
    requires s.phase.Running? && Runnable(s, steps)
    requires forall i :: 0 <= i < |steps| ==> !steps[i].Lower?
    ensures Run(s, steps).phase.Running?
    ensures IsSuffix(Run(s, steps).batch, s.batch) && s.pending <= Run(s, steps).pending
    decreases steps
  {
    if steps != [] {
      var n := Apply(s, steps[0]);
      BatchStep(s, steps[0]);
      BatchShrinks(s, steps[0]);
      BatchOnlyShrinks(n, steps[1..]);
      SuffixTrans(Run(n, steps[1..]).batch, n.batch, s.batch);
    }
  }

  // ---------------------------------------------------------------- every reported channel is handled

  /** What `poll` reported in the course of a run, in order. */
  function Reported(steps: seq<Step>): seq<Handler> {
    if steps == [] then [] else (if steps[0].PollReturn? then steps[0].ready else []) + Reported(steps[1..])
  }

  /** The channels whose handlers returned in the course of a run, in order. */
  function Handled(s: State, steps: seq<Step>): seq<Handler>
    requires Runnable(s, steps)
    decreases steps
  {
    if steps == [] then [] else
      (if steps[0].Handle? then [s.active[0]] else []) + Handled(Apply(s, steps[0]), steps[1..])
  }

  /** The eventfd's counter by its own rules: a write adds one, up to the limit, and only the
      handler of the loop's own channel resets it. */
  function Counted(s: State, steps: seq<Step>, c: nat): nat
    requires Runnable(s, steps)
    decreases steps
  {
    if steps == [] then c else
      var c' := match steps[0]
                case Write(_) => if c < 0xFFFF_FFFF_FFFF_FFFE then c + 1 else c
                case SelfWrite => if c < 0xFFFF_FFFF_FFFF_FFFE then c + 1 else c
                case Handle => if s.active[0].Wakeup? then 0 else c
                case _ => c;
      Counted(Apply(s, steps[0]), steps[1..], c')
  }

  /** Handlers run exactly once for each report, in the order reported: what was handled and what
      is still to be handled is what was active and what was reported since.  When functors are
      taken all of it has been handled, since nothing is active then. */
  lemma {:induction false} ReportedAreHandled(s: State, steps: seq<Step>)
    requires Shape(s) && Runnable(s, steps)
    ensures Handled(s, steps) + Run(s, steps).active == s.active + Reported(steps)
    ensures !Run(s, steps).phase.Handling? ==> Handled(s, steps) == s.active + Reported(steps)
    decreases steps
  {
    if steps == [] {
      assert s.active + [] == [] + s.active;
    } else {
      var n := Apply(s, steps[0]);
      var handled := if steps[0].Handle? then [s.active[0]] else [];
      var reported := if steps[0].PollReturn? then steps[0].ready else [];
      StepKeepsShape(s, steps[0]);
      ReportedAreHandled(n, steps[1..]);
      ActiveBalance(s, steps[0]);
      Associative(handled, Handled(n, steps[1..]), Run(n, steps[1..]).active);
      Associative(handled, n.active, Reported(steps[1..]));
      Associative(s.active, reported, Reported(steps[1..]));
    }
    RunKeepsShape(s, steps);
  }

  lemma ActiveBalance(s: State, step: Step)
    requires Shape(s) && Enabled(s, step)
    ensures (if step.Handle? then [s.active[0]] else []) + Apply(s, step).active
            == s.active + (if step.PollReturn? then step.ready else [])
  {
    ActiveStep(s, step);
  }

  lemma ActiveStep(s: State, step: Step)
    requires Shape(s) && Enabled(s, step)
    ensures var n := Apply(s, step);
            match step
            case PollReturn(ready) => s.active == [] && n.active == ready
            case Handle => s.active != [] && n.active == s.active[1..]
            case _ => n.active == s.active
  {
  }

  lemma {:induction false} RunKeepsShape(s: State, steps: seq<Step>)
    requires Shape(s) && Runnable(s, steps)
    ensures Shape(Run(s, steps))
    decreases steps
  {
    if steps != [] {
      StepKeepsShape(s, steps[0]);
      RunKeepsShape(Apply(s, steps[0]), steps[1..]);
    }
  }

  /** The counter is what the writes and the handlers of the run make it. */
  lemma {:induction false} CounterExact(s: State, steps: seq<Step>)
    requires Runnable(s, steps)
    ensures Run(s, steps).counter == Counted(s, steps, s.counter)
    decreases steps
  {
    if steps != [] {
      CounterStep(s, steps[0]);
      CounterExact(Apply(s, steps[0]), steps[1..]);
    }
  }

  lemma CounterStep(s: State, step: Step)
    requires Enabled(s, step)
    ensures Apply(s, step).counter
            == match step
               case Write(_) => if s.counter < 0xFFFF_FFFF_FFFF_FFFE then s.counter + 1 else s.counter
               case SelfWrite => if s.counter < 0xFFFF_FFFF_FFFF_FFFE then s.counter + 1 else s.counter
               case Handle => if s.active[0].Wakeup? then 0 else s.counter
               case _ => s.counter
  {
  }

  // ---------------------------------------------------------------- quit

  /** The steps by which the loop thread itself advances. */
  predicate Advances(step: Step) {
    step.Test? || step.PollReturn? || step.Handle? || step.Raise? || step.Swap? || step.Begin? || step.End? || step.Lower?
  }

  /** How far the phase is from the exit once quit_ is set. */
  function Rank(s: State): nat {
    match s.phase
    case Idle => 6
    case Polling => 5
    case Handling => 4
    case PreSwap => 3
    case Running => 2
    case LoopTop => 1
    case Finished => 0
  }

  /** What is left to do in the phase: active channels, or functors of the batch, each of which
      starts and returns.  What others queue meanwhile is not part of it. */
  function Work(s: State): nat {
    match s.phase
    case Handling => |s.active|
    case Running => 2 * |s.batch| + |Current(s)|
    case _ => 0
  }

  predicate Closer(s: State, t: State) {
    Rank(s) < Rank(t) || (Rank(s) == Rank(t) && Work(s) < Work(t))
  }

  predicate SameDistance(s: State, t: State) {
    Rank(s) == Rank(t) && Work(s) == Work(t)
  }

  /** After a quit every step of the loop thread brings the exit nearer in lexicographic order,
      and no step of anyone moves it away. */
  lemma QuitStep(s: State, step: Step)
    requires Shape(s) && s.quit && !s.phase.Idle? && Enabled(s, step)
    ensures Apply(s, step).quit && !Apply(s, step).phase.Idle?
    ensures if Advances(step) then Closer(Apply(s, step), s) else SameDistance(Apply(s, step), s)
  {
  }

  /** The same over runs, whatever other threads and functors queue; throughout, a blocked loop
      has a wakeup pending or imminent. */
  lemma {:induction false} QuitRun(s: State, steps: seq<Step>)
    requires Shape(s) && s.quit && !s.phase.Idle? && Runnable(s, steps)
    ensures Run(s, steps).quit && (Run(s, steps).phase.Polling? ==> WakeupDue(Run(s, steps)))
    ensures if exists i :: 0 <= i < |steps| && Advances(steps[i]) then Closer(Run(s, steps), s)
            else SameDistance(Run(s, steps), s)
    decreases steps
  {
    if steps != [] {
      QuitStep(s, steps[0]);
      StepKeepsShape(s, steps[0]);
      QuitRun(Apply(s, steps[0]), steps[1..]);
      assert forall i :: 0 < i < |steps| ==> steps[i] == steps[1..][i - 1];
    }
  }

  /** Until the exit some step is enabled that ends the wait or advances the loop. */
  lemma QuitProgress(s: State) returns (step: Step)
    requires Shape(s) && s.quit && !s.phase.Idle? && !s.phase.Finished?
    ensures Enabled(s, step) && (Advances(step) || step.Write? || step.SelfWrite?)
    ensures step.PollReturn? ==> step.ready == [Wakeup]
  {
    match s.phase
    case LoopTop => step := Test;
    case Polling =>
      if s.counter > 0 {
        step := PollReturn([Wakeup]);
      } else {
        var t :| t in s.waking;
        step := Write(t);
      }
    case Handling => step := if s.active == [] then Raise else Handle;
    case PreSwap => step := Swap;
    case Running =>
      step := if s.selfWaking then SelfWrite else if s.running.Some? then End
              else if s.batch == [] then Lower else Begin;
  }

  // ---------------------------------------------------------------- unbounded runs

  /** An infinite run: the states passed through and the step taken in each, if anyone moves. */
  ghost predicate IsRun(at: nat -> State, does: nat -> Option<Step>) {
    forall i: nat :: StepTaken(at, does, i)
  }

  ghost predicate StepTaken(at: nat -> State, does: nat -> Option<Step>, i: nat) {
    match does(i)
    case Some(step) => Enabled(at(i), step) && at(i + 1) == Apply(at(i), step)
    case None => at(i + 1) == at(i)
  }

  /** The loop thread moves. */
  predicate Moves(move: Option<Step>) {
    move.Some? && Advances(move.value)
  }

  /** The loop thread has nothing it could do. */
  predicate Blocked(s: State) {
    s.phase.Finished? || (s.phase.Polling? && s.counter == 0)
  }

  ghost predicate MovesOn(at: nat -> State, does: nat -> Option<Step>, i: nat) {
    exists j: nat :: i <= j && (Moves(does(j)) || Blocked(at(j)))
  }

  ghost predicate WritesAfter(does: nat -> Option<Step>, i: nat, t: Tid) {
    exists j: nat :: i <= j && does(j) == Some(Write(t))
  }

  /** Handlers and functors return, `epoll_wait` reports a readable eventfd, and a thread that
      is on its way to the wakeup write gets there.  Nothing bounds how much others queue. */
  ghost predicate Fair(at: nat -> State, does: nat -> Option<Step>) {
    && (forall i: nat :: MovesOn(at, does, i))
    && (forall i: nat, t: Tid :: t in at(i).waking ==> WritesAfter(does, i, t))
  }

  lemma {:induction false} StaysLooping(at: nat -> State, does: nat -> Option<Step>, i: nat, j: nat)
    requires IsRun(at, does) && i <= j && Shape(at(i)) && !at(i).phase.Idle?
    ensures Shape(at(j)) && !at(j).phase.Idle? && (at(i).quit ==> at(j).quit)
    decreases j
  {
    if i < j {
      StaysLooping(at, does, i, j - 1);
      assert StepTaken(at, does, j - 1);
      if does(j - 1).Some? {
        StepKeepsShape(at(j - 1), does(j - 1).value);
      }
    }
  }

  /** Others have acted but the loop thread has not moved: its phase and what it has in hand are
      the same, the eventfd was not reset, and a wait that would end still will. */
  predicate Unmoved(s: State, t: State) {
    && t.phase == s.phase && t.active == s.active && t.batch == s.batch && t.running == s.running
    && t.executed == s.executed && (s.counter > 0 ==> t.counter > 0) && (WakeupDue(s) ==> WakeupDue(t))
  }

  lemma UnmovedStep(s: State, step: Step)
    requires !s.phase.Idle? && Enabled(s, step) && !Advances(step)
    ensures Unmoved(s, Apply(s, step))
  {
  }

  lemma {:induction false} StaysPut(at: nat -> State, does: nat -> Option<Step>, i: nat, j: nat)
    requires IsRun(at, does) && i <= j && !at(i).phase.Idle?
    requires forall k :: i <= k < j ==> !Moves(does(k))
    ensures Unmoved(at(i), at(j))
    decreases j
  {
    if i < j {
      StaysPut(at, does, i, j - 1);
      assert StepTaken(at, does, j - 1);
      if does(j - 1).Some? {
        UnmovedStep(at(j - 1), does(j - 1).value);
      }
    }
  }

  lemma WriteComes(at: nat -> State, does: nat -> Option<Step>, j: nat)
    requires Fair(at, does) && Shape(at(j)) && at(j).phase.Polling? && at(j).counter == 0 && WakeupDue(at(j))
    ensures exists m: nat :: j <= m && does(m).Some? && does(m).value.Write?
  {
    var t :| t in at(j).waking;
    assert WritesAfter(does, j, t);
  }

  lemma WriteUnblocks(at: nat -> State, does: nat -> Option<Step>, m: nat, k: nat)
    requires IsRun(at, does) && m < k && at(m).phase.Polling? && does(m).Some? && does(m).value.Write?
    requires forall n :: m <= n < k ==> !Moves(does(n))
    ensures !Blocked(at(k))
  {
    assert StepTaken(at, does, m);
    StaysPut(at, does, m + 1, k);
  }

  /** The loop is running, and if it is in `poll` something will end the wait. */
  predicate Lively(s: State) {
    Shape(s) && !s.phase.Idle? && !s.phase.Finished? && (s.phase.Polling? ==> WakeupDue(s))
  }

  /** A lively loop always moves again: if it is blocked, the write that is due happens and the
      wait ends. */
  lemma MovesAgain(at: nat -> State, does: nat -> Option<Step>, i: nat)
    requires IsRun(at, does) && Fair(at, does) && Lively(at(i))
    ensures exists k: nat :: i <= k && Moves(does(k))
  {
    if forall k: nat :: i <= k ==> !Moves(does(k)) {
      var m := StuckUntilWrite(at, does, i);
      assert MovesOn(at, does, m + 1);
      var k: nat :| m + 1 <= k && Blocked(at(k));
      WriteUnblocks(at, does, m, k);
    }
  }

  lemma StuckUntilWrite(at: nat -> State, does: nat -> Option<Step>, i: nat) returns (m: nat)
    requires IsRun(at, does) && Fair(at, does) && Lively(at(i))
    requires forall k: nat :: i <= k ==> !Moves(does(k))
    ensures i <= m && does(m).Some? && does(m).value.Write? && at(m).phase.Polling?
  {
    assert MovesOn(at, does, i);
    var j: nat :| i <= j && Blocked(at(j));
    StaysPut(at, does, i, j);
    StaysLooping(at, does, i, j);
    WriteComes(at, does, j);
    m :| j <= m && does(m).Some? && does(m).value.Write?;
    StaysPut(at, does, i, m);
  }

  /** The first move of a lively loop from now on, made in the state it is in now. */
  lemma NextMove(at: nat -> State, does: nat -> Option<Step>, i: nat) returns (k: nat)
    requires IsRun(at, does) && Fair(at, does) && Lively(at(i))
    ensures i <= k && Moves(does(k)) && Unmoved(at(i), at(k)) && Shape(at(k))
    ensures Enabled(at(k), does(k).value) && at(k + 1) == Apply(at(k), does(k).value)
    ensures at(i).quit ==> at(k).quit
  {
    MovesAgain(at, does, i);
    var j: nat :| i <= j && Moves(does(j));
    var moves := (n: nat) => Moves(does(n));
    k := First(moves, i, j);
    assert forall m: nat | i <= m < k :: Moves(does(m)) == moves(m);
    StaysPut(at, does, i, k);
    StaysLooping(at, does, i, k);
    assert StepTaken(at, does, k);
  }

  /** Once quit_ is set past the start of `loop()`, every fair run exits, however many functors
      are queued by whomever. */
  lemma {:induction false} QuitTerminates(at: nat -> State, does: nat -> Option<Step>, i: nat)
    requires IsRun(at, does) && Fair(at, does) && Shape(at(i)) && at(i).quit && !at(i).phase.Idle?
    ensures exists n: nat :: i <= n && at(n).phase.Finished?
    decreases Rank(at(i)), Work(at(i))
  {
    if !at(i).phase.Finished? {
      var k := NextMove(at, does, i);
      QuitStep(at(k), does(k).value);
      StepKeepsShape(at(k), does(k).value);
      QuitTerminates(at, does, k + 1);
    }
  }

  // ---------------------------------------------------------------- every functor runs

  /** How far the loop is from running a functor that waits, in phases: a batch in hand is the
      nearest, an emptied one the farthest. */
  function Turn(s: State): nat {
    match s.phase
    case Idle => 7
    case Running => if s.batch == [] && s.running.None? then 6 else 1
    case LoopTop => 5
    case Polling => 4
    case Handling => 3
    case PreSwap => 2
    case Finished => 0
  }

  /** With the `n`-th functor queued and not yet executed, each step of the loop thread executes
      one, or brings the next execution nearer. */
  lemma TurnStep(s: State, step: Step, n: nat)
    requires Shape(s) && !s.phase.Idle? && Enabled(s, step) && Advances(step)
    requires Everything(s) == s.enqueued && |s.executed| < n <= |s.enqueued|
    ensures var t := Apply(s, step);
            || t.phase.Finished? || |t.executed| > |s.executed|
            || (|t.executed| == |s.executed| && (Turn(t) < Turn(s) || (Turn(t) == Turn(s) && Work(t) < Work(s))))
  {
    assert |Everything(s)| == |s.executed| + |Current(s)| + |s.batch| + |s.pending|;
  }

  lemma {:induction false} StaysCovered(at: nat -> State, does: nat -> Option<Step>, i: nat, j: nat)
    requires IsRun(at, does) && i <= j && Inv(at(i)) && !at(i).phase.Idle? && Everything(at(i)) == at(i).enqueued
    ensures Inv(at(j)) && !at(j).phase.Idle? && Everything(at(j)) == at(j).enqueued
    ensures at(i).enqueued <= at(j).enqueued
    decreases j
  {
    if i < j {
      StaysCovered(at, does, i, j - 1);
      assert StepTaken(at, does, j - 1);
      if does(j - 1).Some? {
        CoveredStep(at(j - 1), does(j - 1).value);
      }
    }
  }

  lemma CoveredStep(s: State, step: Step)
    requires Inv(s) && !s.phase.Idle? && Enabled(s, step) && Everything(s) == s.enqueued
    ensures var t := Apply(s, step);
            Inv(t) && !t.phase.Idle? && Everything(t) == t.enqueued && s.enqueued <= t.enqueued
  {
    StepKeepsInv(s, step);
    StepKeepsOrder(s, step);
  }

  lemma WaitingIsLively(s: State, n: nat)
    requires Inv(s) && !s.phase.Idle? && !s.phase.Finished?
    requires Everything(s) == s.enqueued && |s.executed| < n <= |s.enqueued|
    ensures Lively(s)
  {
    assert |Everything(s)| == |s.executed| + |Current(s)| + |s.batch| + |s.pending|;
  }

  lemma {:induction false} ExecutesAll(at: nat -> State, does: nat -> Option<Step>, i: nat, n: nat)
    requires IsRun(at, does) && Fair(at, does) && Inv(at(i)) && !at(i).phase.Idle?
    requires Everything(at(i)) == at(i).enqueued && n <= |at(i).enqueued|
    ensures exists k: nat :: i <= k && (at(k).phase.Finished? || |at(k).executed| >= n)
    decreases if |at(i).executed| < n then n - |at(i).executed| else 0, Turn(at(i)), Work(at(i))
  {
    if !at(i).phase.Finished? && |at(i).executed| < n {
      WaitingIsLively(at(i), n);
      var k := NextMove(at, does, i);
      StaysCovered(at, does, i, k);
      TurnStep(at(k), does(k).value, n);
      StaysCovered(at, does, i, k + 1);
      if !at(k + 1).phase.Finished? {
        ExecutesAll(at, does, k + 1, n);
      }
    }
  }

  /** All that has been queued by now is later executed, in order, unless the loop exits. */
  ghost predicate RunsLater(at: nat -> State, i: nat) {
    exists k: nat :: i <= k && (at(k).phase.Finished? || at(i).enqueued <= at(k).executed)
  }

  /** No functor waits for ever: in a fair run entered with its waiting functors covered, all
      that has been queued by any moment is later executed, in order, unless the loop exits. */
  lemma EveryFunctorRuns(at: nat -> State, does: nat -> Option<Step>, i: nat)
    requires IsRun(at, does) && Fair(at, does) && BeforeLoop(at(0)) && does(0) == Some(Enter) && i > 0
    requires at(0).pending == [] || WakeupDue(at(0))
    requires Everything(at(0)) == at(0).enqueued
    ensures RunsLater(at, i)
  {
    assert StepTaken(at, does, 0);
    StepKeepsInv(at(0), Enter);
    StaysCovered(at, does, 1, i);
    ExecutesAll(at, does, i, |at(i).enqueued|);
    var k: nat :| i <= k && (at(k).phase.Finished? || |at(k).executed| >= |at(i).enqueued|);
    StaysCovered(at, does, i, k);
    if !at(k).phase.Finished? {
      ExecutedPrefix(at(k), at(i).enqueued);
    }
  }

  lemma ExecutedPrefix(s: State, queued: seq<Fid>)
    requires Everything(s) == s.enqueued && queued <= s.enqueued && |queued| <= |s.executed|
    ensures queued <= s.executed
  {
    assert Everything(s) == s.executed + (Current(s) + s.batch + s.pending);
  }

  // ---------------------------------------------------------------- every dispatch ends

  /** In a fair run every dispatch loop ends: all active channels are handled, and the functors are
      taken next. */
  lemma {:induction false} DispatchEnds(at: nat -> State, does: nat -> Option<Step>, i: nat) returns (k: nat)
    requires IsRun(at, does) && Fair(at, does) && Shape(at(i)) && at(i).phase.Handling?
    ensures i <= k && does(k) == Some(Raise)
    decreases |at(i).active|
  {
    k := NextMove(at, does, i);
    if does(k) != Some(Raise) {
      ActiveStep(at(k), does(k).value);
      StepKeepsShape(at(k), does(k).value);
      k := DispatchEnds(at, does, k + 1);
    }
  }

  /** The channel at position `p` of the active ones is handled before that, when its turn comes. */
  lemma {:induction false} ChannelHandled(at: nat -> State, does: nat -> Option<Step>, i: nat, p: nat) returns (k: nat)
    requires IsRun(at, does) && Fair(at, does) && Shape(at(i)) && at(i).phase.Handling? && p < |at(i).active|
    ensures i <= k && does(k) == Some(Handle) && at(k).phase.Handling? && at(k).active == at(i).active[p..]
    ensures at(i).active[p].Wakeup? ==> at(k + 1).counter == 0
    decreases p
  {
    k := NextMove(at, does, i);
    CounterStep(at(k), does(k).value);
    if p > 0 {
      ActiveStep(at(k), does(k).value);
      StepKeepsShape(at(k), does(k).value);
      k := ChannelHandled(at, does, k + 1, p - 1);
    } else {
      assert at(i).active[0..] == at(i).active;
    }
  }

  // ---------------------------------------------------------------- fair runs exist

  /** The run in which nobody but the loop thread moves. */
  function Alone(s: State): Option<Step> {
    match s.phase
    case Idle => Some(Enter)
    case LoopTop => Some(Test)
    case Polling => if s.counter > 0 then Some(PollReturn([Wakeup])) else None
    case Handling => Some(if s.active == [] then Raise else Handle)
    case PreSwap => Some(Swap)
    case Running => Some(if s.running.Some? then End else if s.batch == [] then Lower else Begin)
    case Finished => None
  }

  /** No other thread is about to write, nor is the loop thread. */
  predicate Quiet(s: State) {
    Shape(s) && !s.selfWaking && s.waking == {}
  }

  function AloneStep(s: State): State
    requires Quiet(s)
  {
    match Alone(s)
    case Some(step) => Apply(s, step)
    case None => s
  }

  lemma AloneKeeps(s: State)
    requires Quiet(s)
    ensures Quiet(AloneStep(s)) && !AloneStep(s).phase.Idle?
    ensures !s.phase.Idle? ==> Moves(Alone(s)) || Blocked(s)
  {
    if Alone(s).Some? {
      StepKeepsShape(s, Alone(s).value);
    }
  }

  ghost function Alones(s: State, i: nat): State {
    if i == 0 then s else
      var m := Alones(s, i - 1);
      if Quiet(m) then AloneStep(m) else m
  }

  lemma {:induction false} StaysQuiet(s: State, i: nat)
    requires Quiet(s)
    ensures Quiet(Alones(s, i)) && (i > 0 ==> !Alones(s, i).phase.Idle?)
  {
    if i > 0 {
      StaysQuiet(s, i - 1);
      AloneKeeps(Alones(s, i - 1));
    }
  }

  ghost function StateAt(s: State, i: nat): State {
    Alones(s, i)
  }

  ghost function StatesOf(s: State): nat -> State {
    (i: nat) => StateAt(s, i)
  }

  ghost function MovesOf(s: State): nat -> Option<Step> {
    (i: nat) => Alone(StateAt(s, i))
  }

  lemma AloneAt(s: State, i: nat)
    requires Quiet(s)
    ensures Quiet(StateAt(s, i)) && StateAt(s, i + 1) == AloneStep(StateAt(s, i))
    ensures i > 0 ==> Moves(Alone(StateAt(s, i))) || Blocked(StateAt(s, i))
  {
    StaysQuiet(s, i);
    AloneKeeps(Alones(s, i));
  }

  lemma AloneIsRun(s: State)
    requires Quiet(s)
    ensures IsRun(StatesOf(s), MovesOf(s))
  {
    forall i: nat
      ensures StepTaken(StatesOf(s), MovesOf(s), i)
    {
      AloneAt(s, i);
    }
  }

  lemma AloneMovesOn(s: State, i: nat)
    requires Quiet(s)
    ensures MovesOn(StatesOf(s), MovesOf(s), i)
  {
    var j := i + 1;
    AloneAt(s, j);
    assert Moves(MovesOf(s)(j)) || Blocked(StatesOf(s)(j));
  }

  lemma AloneIsFair(s: State)
    requires Quiet(s)
    ensures Fair(StatesOf(s), MovesOf(s))
  {
    forall i: nat
      ensures MovesOn(StatesOf(s), MovesOf(s), i)
    {
      AloneMovesOn(s, i);
    }
    forall i: nat
      ensures StatesOf(s)(i).waking == {}
    {
      AloneAt(s, i);
    }
  }

  /** From every state before `loop()` without a write on its way there is a fair run. */
  lemma FairRunExists(s: State)
    requires BeforeLoop(s) && s.waking == {}
    ensures exists at: nat -> State, does: nat -> Option<Step> ::
              IsRun(at, does) && Fair(at, does) && at(0) == s && does(0) == Some(Enter)
  {
    AloneIsRun(s);
    AloneIsFair(s);
    assert StatesOf(s)(0) == s && MovesOf(s)(0) == Some(Enter);
  }

  /** If the functors waiting on entry are not covered, the loop may block at once and for ever. */
  lemma {:induction false} UncoveredNeverRun(s: State, i: nat)
    requires BeforeLoop(s) && Quiet(s) && s.counter == 0 && i >= 2
    ensures StateAt(s, i) == s.(phase := Polling, quit := false)
  {
    AloneAt(s, i - 1);
    if i > 2 {
      UncoveredNeverRun(s, i - 1);
    } else {
      AloneAt(s, 0);
    }
  }

  /** Every functor is run in every fair run if and only if those waiting when `loop()` is
      entered are covered by a wakeup. */
  lemma EveryFunctorRunsIff(s: State)
    requires BeforeLoop(s) && Everything(s) == s.enqueued
    ensures (forall at: nat -> State, does: nat -> Option<Step>, i: nat
               | IsRun(at, does) && Fair(at, does) && at(0) == s && does(0) == Some(Enter) && i > 0 :: RunsLater(at, i))
            <==> s.pending == [] || WakeupDue(s)
  {
    if s.pending == [] || WakeupDue(s) {
      forall at: nat -> State, does: nat -> Option<Step>, i: nat
        | IsRun(at, does) && Fair(at, does) && at(0) == s && does(0) == Some(Enter) && i > 0
        ensures RunsLater(at, i)
      {
        EveryFunctorRuns(at, does, i);
      }
    } else {
      AloneIsRun(s);
      AloneIsFair(s);
      assert StatesOf(s)(0) == s && MovesOf(s)(0) == Some(Enter);
      NeverRunsLater(s);
    }
  }

  lemma NeverRunsLater(s: State)
    requires BeforeLoop(s) && Everything(s) == s.enqueued && s.pending != [] && !WakeupDue(s)
    ensures !RunsLater(StatesOf(s), 2)
  {
    assert |Everything(s)| > |s.executed|;
    forall k: nat | 2 <= k
      ensures var t := StatesOf(s)(k); t.phase.Polling? && t.enqueued == s.enqueued && t.executed == s.executed
    {
      UncoveredNeverRun(s, k);
    }
  }

  // ---------------------------------------------------------------- when a quit counts

  predicate Asks(step: Step) {
    step.Quit? || step.SelfQuit?
  }

  predicate Requests(move: Option<Step>) {
    move.Some? && Asks(move.value)
  }

  lemma UnaskedStep(s: State, step: Step)
    requires !s.quit && !s.phase.Idle? && !s.phase.Finished? && Enabled(s, step) && !Asks(step)
    ensures var n := Apply(s, step); !n.quit && !n.phase.Idle? && !n.phase.Finished?
  {
  }

  lemma {:induction false} UnaskedNeverFinishes(s: State, steps: seq<Step>)
    requires !s.quit && !s.phase.Idle? && !s.phase.Finished? && Runnable(s, steps)
    requires forall i :: 0 <= i < |steps| ==> !Asks(steps[i])
    ensures !Run(s, steps).quit && !Run(s, steps).phase.Finished?
    decreases steps
  {
    if steps != [] {
      UnaskedStep(s, steps[0]);
      UnaskedNeverFinishes(Apply(s, steps[0]), steps[1..]);
    }
  }

  /** `loop()` erases every earlier quit: whatever was asked before it was entered, it exits
      only in runs in which a quit comes after it cleared the flag. */
  lemma EarlyQuitErased(s: State, steps: seq<Step>)
    requires BeforeLoop(s) && Runnable(Apply(s, Enter), steps)
    requires Run(Apply(s, Enter), steps).phase.Finished?
    ensures exists i :: 0 <= i < |steps| && Asks(steps[i])
  {
    if forall i :: 0 <= i < |steps| ==> !Asks(steps[i]) {
      UnaskedNeverFinishes(Apply(s, Enter), steps);
    }
  }

  lemma {:induction false} UnaskedStaysOpen(at: nat -> State, does: nat -> Option<Step>, n: nat)
    requires IsRun(at, does) && BeforeLoop(at(0)) && does(0) == Some(Enter) && n > 0
    requires forall i: nat :: 0 < i < n ==> !Requests(does(i))
    ensures !at(n).quit && !at(n).phase.Idle? && !at(n).phase.Finished?
  {
    assert StepTaken(at, does, n - 1);
    if n > 1 {
      UnaskedStaysOpen(at, does, n - 1);
      if does(n - 1).Some? {
        UnaskedStep(at(n - 1), does(n - 1).value);
      }
    }
  }

  /** A fair run of `loop()` exits if and only if someone quits after it cleared the flag. */
  lemma ExitsIffQuitAfterEntry(at: nat -> State, does: nat -> Option<Step>)
    requires IsRun(at, does) && Fair(at, does) && BeforeLoop(at(0)) && does(0) == Some(Enter)
    ensures (exists n: nat :: at(n).phase.Finished?) <==> (exists i: nat :: 0 < i && Requests(does(i)))
  {
    assert StepTaken(at, does, 0);
    StepKeepsShape(at(0), Enter);
    if n: nat :| at(n).phase.Finished? {
      if forall i: nat :: 0 < i ==> !Requests(does(i)) {
        UnaskedStaysOpen(at, does, n);
      }
    }
    if i: nat :| 0 < i && Requests(does(i)) {
      assert StepTaken(at, does, i);
      StaysLooping(at, does, 1, i + 1);
      QuitTerminates(at, does, i + 1);
    }
  }
}

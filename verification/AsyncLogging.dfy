/** The double-buffered logger (log/AsyncLogging.cc) as a protocol on messages.

    Producers and the back end exchange whole buffers under one mutex; the back end releases it
    only inside `wait_for`.  A run is therefore any interleaving of the steps below. */
module LoggerSpec {
  import opened Basics
  import opened FixedBuffers

  type Msg = seq<byte>

  /** The back end: about to test `running_`, past the test and about to lock, inside `wait_for`,
      past the loop. */
  datatype Phase = AtTop | Entering | Waiting | Exited

  /** The messages in each place a message can be: given to the log file, in a full buffer
      waiting in `buffers_`, in the current buffer. */
  datatype View = View(written: seq<Msg>, full: seq<seq<Msg>>, current: seq<Msg>, hasNext: bool,
                       running: bool, phase: Phase)

  datatype Step = Append(msg: Msg) | Stop | Test | Lock | Awake

  /** `append`, one critical section. */
  function AppendMsg(capacity: nat, v: View, msg: Msg): View {
    if |Concat(v.current)| <= capacity && HasRoom(capacity, |Concat(v.current)|, |msg|) then
      v.(current := v.current + [msg])
    else
      v.(full := v.full + [v.current],
         current := if HasRoom(capacity, 0, |msg|) then [msg] else [],
         hasNext := false)
  }

  /** The body of one back-end iteration, from the push of the current buffer to the flush. */
  function Iterate(v: View): View {
    v.(written := v.written + Concat(v.full) + v.current, full := [], current := [], hasNext := true)
  }

  /** The loop test; past the loop the file is flushed, and drained into when repaired. */
  function TestStep(exit: Variant, v: View): View {
    if v.running then v.(phase := Entering)
    else (if exit.Repaired? then Iterate(v) else v).(phase := Exited)
  }

  /** With the mutex just taken: the wait if nothing is queued, otherwise the iteration. */
  function LockStep(v: View): View {
    if v.full == [] then v.(phase := Waiting) else Iterate(v).(phase := AtTop)
  }

  predicate Enabled(v: View, step: Step) {
    match step
    case Append(_) => true
    case Stop => true
    case Test => v.phase.AtTop?
    case Lock => v.phase.Entering?
    case Awake => v.phase.Waiting?
  }

  function Apply(capacity: nat, exit: Variant, v: View, step: Step): View
    requires Enabled(v, step)
  {
    match step
    case Append(msg) => AppendMsg(capacity, v, msg)
    case Stop => v.(running := false)
    case Test => TestStep(exit, v)
    case Lock => LockStep(v)
    case Awake => Iterate(v).(phase := AtTop)
  }

  const INITIAL: View := View([], [], [], true, true, AtTop)

  /** `steps` can be taken in this order from `v`. */
  predicate Runnable(capacity: nat, exit: Variant, v: View, steps: seq<Step>)
    decreases steps
  {
    steps == [] || (Enabled(v, steps[0]) && Runnable(capacity, exit, Apply(capacity, exit, v, steps[0]), steps[1..]))
  }

  function Run(capacity: nat, exit: Variant, v: View, steps: seq<Step>): View
    requires Runnable(capacity, exit, v, steps)
    decreases steps
  {
    if steps == [] then v else Run(capacity, exit, Apply(capacity, exit, v, steps[0]), steps[1..])
  }

  /** All messages the logger holds or has written, in the order they sit in. */
  function Everything(v: View): seq<Msg> {
    v.written + Concat(v.full) + v.current
  }

  /** The message of an append, unless even a fresh buffer is too small for it. */
  function Taken(capacity: nat, step: Step): seq<Msg> {
    if step.Append? && |step.msg| < capacity then [step.msg] else []
  }

  /** The messages of a run that a fresh buffer can take, in order. */
  function Appended(capacity: nat, steps: seq<Step>): seq<Msg> {
    if steps == [] then [] else Taken(capacity, steps[0]) + Appended(capacity, steps[1..])
  }

  /** Between critical sections: no spare buffer means a full one is waiting, and every group
      of messages fits one buffer. */
  ghost predicate Inv(capacity: nat, v: View) {
    && (!v.hasNext ==> v.full != [])
    && |Concat(v.current)| <= capacity
    && (forall g | g in v.full :: |Concat(g)| <= capacity)
  }

  lemma AppendFits(capacity: nat, v: View, msg: Msg)
    requires Inv(capacity, v) && HasRoom(capacity, |Concat(v.current)|, |msg|)
    ensures Inv(capacity, AppendMsg(capacity, v, msg))
    ensures Everything(AppendMsg(capacity, v, msg)) == Everything(v) + [msg]
  {
    ConcatSnoc(v.current, msg);
    Associative(v.written + Concat(v.full), v.current, [msg]);
  }

  lemma AppendRotates(capacity: nat, v: View, msg: Msg)
    requires Inv(capacity, v) && !HasRoom(capacity, |Concat(v.current)|, |msg|)
    ensures Inv(capacity, AppendMsg(capacity, v, msg))
    ensures Everything(AppendMsg(capacity, v, msg)) == Everything(v) + Taken(capacity, Append(msg))
  {
    ConcatSnoc(v.full, v.current);
    Associative(v.written, Concat(v.full), v.current);
    ConcatSnoc([], msg);
    assert [] + [msg] == [msg] && [] + msg == msg;
    assert AppendMsg(capacity, v, msg).full == v.full + [v.current];
  }

  lemma StepConserves(capacity: nat, exit: Variant, v: View, step: Step)
    requires Inv(capacity, v) && Enabled(v, step)
    ensures Inv(capacity, Apply(capacity, exit, v, step))
    ensures Everything(Apply(capacity, exit, v, step)) == Everything(v) + Taken(capacity, step)
  {
    if step.Append? {
      if HasRoom(capacity, |Concat(v.current)|, |step.msg|) {
        AppendFits(capacity, v, step.msg);
      } else {
        AppendRotates(capacity, v, step.msg);
      }
    } else {
      assert Everything(v) + [] == Everything(v);
    }
  }

  /** No message is lost, duplicated, reordered or split, in any interleaving. */
  lemma {:induction false} RunConserves(capacity: nat, exit: Variant, v: View, steps: seq<Step>)
    requires Inv(capacity, v) && Runnable(capacity, exit, v, steps)
    ensures Inv(capacity, Run(capacity, exit, v, steps))
    ensures Everything(Run(capacity, exit, v, steps)) == Everything(v) + Appended(capacity, steps)
    decreases steps
  {
    if steps != [] {
      var n, taken := Apply(capacity, exit, v, steps[0]), Taken(capacity, steps[0]);
      StepConserves(capacity, exit, v, steps[0]);
      RunConserves(capacity, exit, n, steps[1..]);
      Associative(Everything(v), taken, Appended(capacity, steps[1..]));
    }
  }

  /** The same in bytes: what the file got, the full buffers in order and the current buffer
      concatenate to the appended messages. */
  lemma RunConservesBytes(capacity: nat, exit: Variant, steps: seq<Step>)
    requires Runnable(capacity, exit, INITIAL, steps)
    ensures var v := Run(capacity, exit, INITIAL, steps);
            Concat(v.written) + Concat(Concat(v.full)) + Concat(v.current) == Concat(Appended(capacity, steps))
  {
    RunConserves(capacity, exit, INITIAL, steps);
    var v := Run(capacity, exit, INITIAL, steps);
    assert Everything(INITIAL) + Appended(capacity, steps) == Appended(capacity, steps);
    ConcatAppend(v.written + Concat(v.full), v.current);
    ConcatAppend(v.written, Concat(v.full));
  }

  /** The step ends with a back-end iteration, or the repaired drain. */
  predicate Iterates(exit: Variant, v: View, step: Step) {
    (step.Lock? && v.full != []) || step.Awake? || (step.Test? && !v.running && exit.Repaired?)
  }

  /** The messages taken since the last iteration of a run, `since` before it. */
  function Unwritten(capacity: nat, exit: Variant, v: View, steps: seq<Step>, since: seq<Msg>): seq<Msg>
    requires Runnable(capacity, exit, v, steps)
    decreases steps
  {
    if steps == [] then since else
      Unwritten(capacity, exit, Apply(capacity, exit, v, steps[0]), steps[1..],
                if Iterates(exit, v, steps[0]) then [] else since + Taken(capacity, steps[0]))
  }

  /** All messages still in a buffer. */
  function Buffered(v: View): seq<Msg> {
    Concat(v.full) + v.current
  }

  lemma Unfiled(v: View)
    ensures Everything(v.(written := [])) == Buffered(v)
  {
    assert [] + Concat(v.full) == Concat(v.full);
  }

  lemma StepBuffers(capacity: nat, exit: Variant, v: View, step: Step)
    requires Inv(capacity, v) && Enabled(v, step)
    ensures Buffered(Apply(capacity, exit, v, step))
            == if Iterates(exit, v, step) then [] else Buffered(v) + Taken(capacity, step)
  {
    if step.Append? {
      Unfiled(v);
      Unfiled(AppendMsg(capacity, v, step.msg));
      StepConserves(capacity, exit, v.(written := []), step);
      assert AppendMsg(capacity, v.(written := []), step.msg) == AppendMsg(capacity, v, step.msg).(written := []);
    } else {
      assert Buffered(v) + [] == Buffered(v);
    }
  }

  lemma {:induction false} RunBuffers(capacity: nat, exit: Variant, v: View, steps: seq<Step>)
    requires Inv(capacity, v) && Runnable(capacity, exit, v, steps)
    ensures Buffered(Run(capacity, exit, v, steps)) == Unwritten(capacity, exit, v, steps, Buffered(v))
    decreases steps
  {
    if steps != [] {
      StepConserves(capacity, exit, v, steps[0]);
      StepBuffers(capacity, exit, v, steps[0]);
      RunBuffers(capacity, exit, Apply(capacity, exit, v, steps[0]), steps[1..]);
    }
  }

  /** What reached the log file is a prefix of what was appended; what is missing is exactly the
      messages taken since the last back-end iteration, so nothing is lost at thread exit if and
      only if none was. */
  lemma ExitWritesPrefix(capacity: nat, exit: Variant, steps: seq<Step>)
    requires Runnable(capacity, exit, INITIAL, steps)
    ensures var v := Run(capacity, exit, INITIAL, steps);
            var lost := Unwritten(capacity, exit, INITIAL, steps, []);
            && v.written + lost == Appended(capacity, steps)
            && v.written <= Appended(capacity, steps)
            && (v.written == Appended(capacity, steps) <==> lost == [])
  {
    RunConserves(capacity, exit, INITIAL, steps);
    RunBuffers(capacity, exit, INITIAL, steps);
    var v := Run(capacity, exit, INITIAL, steps);
    assert Everything(INITIAL) + Appended(capacity, steps) == Appended(capacity, steps);
    assert Buffered(INITIAL) == [];
    Associative(v.written, Concat(v.full), v.current);
  }

  /** The exit as written only flushes the file: a message appended just before `stop` can be
      left in the current buffer. */
  lemma ExitLosesMessage(capacity: nat, msg: Msg)
    requires |msg| < capacity
    ensures var steps := [Append(msg), Stop, Test];
            && Runnable(capacity, AsWritten, INITIAL, steps)
            && Run(capacity, AsWritten, INITIAL, steps).phase.Exited?
            && Run(capacity, AsWritten, INITIAL, steps).written == []
            && Appended(capacity, steps) == [msg]
  {
    var steps := [Append(msg), Stop, Test];
    assert steps[1..] == [Stop, Test];
    assert [Stop, Test][1..] == [Test];
    assert [Test][1..] == [];
    var v1 := Apply(capacity, AsWritten, INITIAL, Append(msg));
    var v2 := v1.(running := false);
    assert Run(capacity, AsWritten, v2, [Test]) == v2.(phase := Exited);
    assert Run(capacity, AsWritten, v1, [Stop, Test]) == v2.(phase := Exited);
    assert Appended(capacity, [Test]) == [];
    assert Appended(capacity, [Stop, Test]) == [];
  }

  /** Draining on exit writes everything appended up to then. */
  lemma RepairedExitWritesAll(capacity: nat, steps: seq<Step>)
    requires Runnable(capacity, Repaired, INITIAL, steps)
    requires var v := Run(capacity, Repaired, INITIAL, steps); v.phase.AtTop? && !v.running
    ensures TestStep(Repaired, Run(capacity, Repaired, INITIAL, steps)).written == Appended(capacity, steps)
  {
    RunConserves(capacity, Repaired, INITIAL, steps);
    assert Everything(INITIAL) + Appended(capacity, steps) == Appended(capacity, steps);
    var v := Run(capacity, Repaired, INITIAL, steps);
    assert TestStep(Repaired, v).written == Everything(v);
  }

  // ---------------------------------------------------------------- when buffers rotate, when the back end waits

  /** A message goes into the current buffer if and only if that leaves a byte free; otherwise the
      buffer is queued as it is and the message starts a new one, if any buffer can take it. */
  lemma AppendRotatesIff(capacity: nat, v: View, msg: Msg)
    requires Inv(capacity, v)
    ensures var r := AppendMsg(capacity, v, msg);
            if |Concat(v.current)| + |msg| < capacity then
              r == v.(current := v.current + [msg])
            else
              && r.full == v.full + [v.current] && !r.hasNext && r.written == v.written
              && r.current == if |msg| < capacity then [msg] else []
  {
  }

  /** Holding the mutex, the back end waits if and only if nothing is queued; otherwise it writes
      everything at once. */
  lemma LockWaitsIff(v: View)
    ensures var r := LockStep(v);
            && (r.phase.Waiting? <==> v.full == [])
            && r.written == (if v.full == [] then v.written else Everything(v))
  {
  }

  // ---------------------------------------------------------------- the back end goes on until stopped

  predicate BackEnd(step: Step) {
    step.Test? || step.Lock? || step.Awake?
  }

  lemma UnstoppedStep(capacity: nat, exit: Variant, v: View, step: Step)
    requires v.running && !v.phase.Exited? && Enabled(v, step) && !step.Stop?
    ensures var n := Apply(capacity, exit, v, step); n.running && !n.phase.Exited?
  {
  }

  /** The thread ends only in runs in which it was told to stop. */
  lemma {:induction false} ExitNeedsStop(capacity: nat, exit: Variant, v: View, steps: seq<Step>)
    requires v.running && !v.phase.Exited? && Runnable(capacity, exit, v, steps)
    requires Run(capacity, exit, v, steps).phase.Exited?
    ensures exists i :: 0 <= i < |steps| && steps[i].Stop?
    decreases steps
  {
    if steps != [] && !steps[0].Stop? {
      UnstoppedStep(capacity, exit, v, steps[0]);
      ExitNeedsStop(capacity, exit, Apply(capacity, exit, v, steps[0]), steps[1..]);
      var i :| 0 <= i < |steps[1..]| && steps[1..][i].Stop?;
      assert steps[i + 1].Stop?;
    }
  }

  /** An infinite run: the states passed through and the step taken in each, if anyone moves. */
  ghost predicate IsRun(capacity: nat, exit: Variant, at: nat -> View, does: nat -> Option<Step>) {
    at(0) == INITIAL && forall i: nat :: StepTaken(capacity, exit, at, does, i)
  }

  ghost predicate StepTaken(capacity: nat, exit: Variant, at: nat -> View, does: nat -> Option<Step>, i: nat) {
    match does(i)
    case Some(step) => Enabled(at(i), step) && at(i + 1) == Apply(capacity, exit, at(i), step)
    case None => at(i + 1) == at(i)
  }

  predicate Moves(move: Option<Step>) {
    move.Some? && BackEnd(move.value)
  }

  ghost predicate GoesOn(at: nat -> View, does: nat -> Option<Step>, i: nat) {
    exists j: nat :: i <= j && (Moves(does(j)) || at(j).phase.Exited?)
  }

  /** The back-end thread gets the mutex and its waits end, by signal or by time-out. */
  ghost predicate Fair(at: nat -> View, does: nat -> Option<Step>) {
    forall i: nat :: GoesOn(at, does, i)
  }

  /** From `s` to `t` nothing taken was lost, and a stop was not undone. */
  ghost predicate Later(capacity: nat, s: View, t: View) {
    Inv(capacity, t) && Everything(s) <= Everything(t) && (!s.running ==> !t.running)
  }

  lemma LaterStep(capacity: nat, exit: Variant, v: View, step: Step)
    requires Inv(capacity, v) && Enabled(v, step)
    ensures Later(capacity, v, Apply(capacity, exit, v, step))
    ensures !BackEnd(step) ==> Apply(capacity, exit, v, step).phase == v.phase
  {
    StepConserves(capacity, exit, v, step);
  }

  lemma {:induction false} StaysLater(capacity: nat, exit: Variant, at: nat -> View, does: nat -> Option<Step>, i: nat, j: nat)
    requires IsRun(capacity, exit, at, does) && i <= j && Inv(capacity, at(i))
    ensures Later(capacity, at(i), at(j))
    ensures (forall k :: i <= k < j ==> !Moves(does(k))) ==> at(j).phase == at(i).phase
    decreases j - i
  {
    if i < j {
      assert StepTaken(capacity, exit, at, does, i);
      if does(i).Some? {
        LaterStep(capacity, exit, at(i), does(i).value);
      }
      StaysLater(capacity, exit, at, does, i + 1, j);
    }
  }

  /** Until it has exited the back end always moves again, from the phase it is in. */
  lemma NextMove(capacity: nat, exit: Variant, at: nat -> View, does: nat -> Option<Step>, i: nat) returns (k: nat)
    requires IsRun(capacity, exit, at, does) && Fair(at, does) && Inv(capacity, at(i)) && !at(i).phase.Exited?
    ensures i <= k && Moves(does(k)) && at(k).phase == at(i).phase && Later(capacity, at(i), at(k))
    ensures Enabled(at(k), does(k).value) && at(k + 1) == Apply(capacity, exit, at(k), does(k).value)
  {
    assert GoesOn(at, does, i);
    var j: nat :| i <= j && (Moves(does(j)) || at(j).phase.Exited?);
    if forall m :: i <= m < j ==> !Moves(does(m)) {
      StaysLater(capacity, exit, at, does, i, j);
    } else {
      j :| i <= j && Moves(does(j));
    }
    var moves := (n: nat) => Moves(does(n));
    k := First(moves, i, j);
    assert forall m: nat | i <= m < k :: Moves(does(m)) == moves(m);
    StaysLater(capacity, exit, at, does, i, k);
    assert StepTaken(capacity, exit, at, does, k);
  }

  /** How far the back end is from its next test. */
  function ToTest(v: View): nat {
    match v.phase
    case Entering => 3
    case Waiting => 2
    case AtTop => 1
    case Exited => 0
  }

  lemma MoveNearsTest(capacity: nat, exit: Variant, v: View, step: Step)
    requires Enabled(v, step) && BackEnd(step)
    ensures var n := Apply(capacity, exit, v, step);
            if v.phase.AtTop? then n.phase == (if v.running then Entering else Exited) else ToTest(n) < ToTest(v)
    ensures v.phase.Waiting? || (v.phase.Entering? && v.full != []) ==> Apply(capacity, exit, v, step).written == Everything(v)
    ensures v.phase.Entering? && v.full == [] ==> Apply(capacity, exit, v, step).phase.Waiting?
  {
  }

  /** Once told to stop, the thread ends. */
  lemma {:induction false} StopEnds(capacity: nat, exit: Variant, at: nat -> View, does: nat -> Option<Step>, i: nat)
    requires IsRun(capacity, exit, at, does) && Fair(at, does) && Inv(capacity, at(i)) && !at(i).running
    ensures exists n: nat :: i <= n && at(n).phase.Exited?
    decreases ToTest(at(i))
  {
    if !at(i).phase.Exited? {
      var k := NextMove(capacity, exit, at, does, i);
      MoveNearsTest(capacity, exit, at(k), does(k).value);
      StaysLater(capacity, exit, at, does, i, k + 1);
      StopEnds(capacity, exit, at, does, k + 1);
    }
  }

  lemma {:induction false} StaysRunning(capacity: nat, exit: Variant, at: nat -> View, does: nat -> Option<Step>, n: nat)
    requires IsRun(capacity, exit, at, does) && forall i: nat :: i < n ==> does(i) != Some(Stop)
    ensures at(n).running && !at(n).phase.Exited?
  {
    if n > 0 {
      StaysRunning(capacity, exit, at, does, n - 1);
      assert StepTaken(capacity, exit, at, does, n - 1);
      if does(n - 1).Some? {
        UnstoppedStep(capacity, exit, at(n - 1), does(n - 1).value);
      }
    }
  }

  /** In a fair run the back-end thread ends if and only if it is told to stop. */
  lemma ExitsIffStopped(capacity: nat, exit: Variant, at: nat -> View, does: nat -> Option<Step>)
    requires IsRun(capacity, exit, at, does) && Fair(at, does)
    ensures (exists n: nat :: at(n).phase.Exited?) <==> (exists i: nat :: does(i) == Some(Stop))
  {
    if n: nat :| at(n).phase.Exited? {
      if forall i: nat :: does(i) != Some(Stop) {
        StaysRunning(capacity, exit, at, does, n);
      }
    }
    if i: nat :| does(i) == Some(Stop) {
      StaysLater(capacity, exit, at, does, 0, i + 1);
      assert StepTaken(capacity, exit, at, does, i);
      StopEnds(capacity, exit, at, does, i + 1);
    }
  }

  /** Every message taken so far is later in the file, in order, as long as nobody stops the
      logger: the back end never skips an iteration for good. */
  lemma EveryMessageWritten(capacity: nat, exit: Variant, at: nat -> View, does: nat -> Option<Step>, i: nat)
    requires IsRun(capacity, exit, at, does) && Fair(at, does) && forall j: nat :: does(j) != Some(Stop)
    ensures exists k: nat :: i <= k && Everything(at(i)) <= at(k).written
  {
    StaysLater(capacity, exit, at, does, 0, i);
    var k := NextIteration(capacity, exit, at, does, i);
  }

  /** How far the back end is from its next iteration. */
  function ToIteration(v: View): nat {
    match v.phase
    case AtTop => 3
    case Entering => 2
    case Waiting => 1
    case Exited => 0
  }

  lemma {:induction false} NextIteration(capacity: nat, exit: Variant, at: nat -> View, does: nat -> Option<Step>, i: nat)
      returns (k: nat)
    requires IsRun(capacity, exit, at, does) && Fair(at, does) && Inv(capacity, at(i))
    requires forall j: nat :: does(j) != Some(Stop)
    ensures i <= k && Everything(at(i)) <= at(k).written
    decreases ToIteration(at(i))
  {
    StaysRunning(capacity, exit, at, does, i);
    k := NextMove(capacity, exit, at, does, i);
    StaysRunning(capacity, exit, at, does, k);
    MoveNearsTest(capacity, exit, at(k), does(k).value);
    if at(k).phase.Waiting? || (at(k).phase.Entering? && at(k).full != []) {
      k := k + 1;
    } else {
      StaysLater(capacity, exit, at, does, i, k + 1);
      k := NextIteration(capacity, exit, at, does, k + 1);
    }
  }

  /** What has been taken by a moment is what the appends up to then brought. */
  lemma EverythingTaken(capacity: nat, exit: Variant, at: nat -> View, does: nat -> Option<Step>, i: nat)
    requires IsRun(capacity, exit, at, does) && Inv(capacity, at(i))
    ensures Everything(at(i + 1)) == Everything(at(i)) + if does(i).Some? then Taken(capacity, does(i).value) else []
  {
    assert StepTaken(capacity, exit, at, does, i);
    if does(i).Some? {
      StepConserves(capacity, exit, at(i), does(i).value);
    } else {
      assert Everything(at(i)) + [] == Everything(at(i));
    }
  }
}

/** The logger on heap buffers: nullable owners, a vector of full buffers, recycling. */
module Loggers {
  import opened Basics
  import opened FixedBuffers
  import opened LoggerSpec
  import FileSpec = LogFileSpec
  import opened LogFiles

  /** `b` is a usable buffer holding exactly these whole messages. */
  ghost predicate Holds(b: FixedBuffer, capacity: nat, msgs: seq<Msg>)
    reads b, b.data
  {
    b.Valid() && b.data.Length == capacity && b.Contents() == Concat(msgs)
  }

  /** `b` is a usable buffer holding nothing. */
  ghost predicate Spare(b: FixedBuffer, capacity: nat)
    reads b
  {
    b.Valid() && b.data.Length == capacity && b.length == 0
  }

  /** A log file in order that has received exactly these messages. */
  ghost predicate Filed(file: FileSpec.LogState, msgs: seq<Msg>) {
    FileSpec.WellFormed(file) && FileSpec.AllData(file) == Concat(msgs)
  }

  lemma NextGroup(before: seq<Msg>, groups: seq<seq<Msg>>, i: nat)
    requires i < |groups|
    ensures before + Concat(groups[..i]) + groups[i] == before + Concat(groups[..i + 1])
  {
    assert groups[..i + 1] == groups[..i] + [groups[i]];
    ConcatSnoc(groups[..i], groups[i]);
    Associative(before, Concat(groups[..i]), groups[i]);
  }

  method NewFile(cfg: FileSpec.Config, now: nat) returns (f: LogFile)
    requires now > 0
    ensures fresh(f) && Filed(f.View(), [])
  {
    f := new LogFile(cfg, now);
    FileSpec.NewWellFormed(now);
  }

  method NewBuffer(capacity: nat) returns (b: FixedBuffer)
    ensures fresh(b) && fresh(b.data) && Spare(b, capacity)
  {
    b := new FixedBuffer(capacity);
  }

  class AsyncLogging {
    const capacity: nat
    const output: LogFile
    var running: bool
    var currentBuffer: FixedBuffer?
    var nextBuffer: FixedBuffer?
    var buffers: seq<FixedBuffer>
    // owned by the back-end thread, kept across iterations
    var newBuffer1: FixedBuffer?
    var newBuffer2: FixedBuffer?
    ghost var phase: Phase
    // which messages sit where
    ghost var written: seq<Msg>
    ghost var full: seq<seq<Msg>>
    ghost var current: seq<Msg>
    // the buffers ever used, and which buffer each storage array belongs to
    ghost var heap: set<FixedBuffer>
    ghost var owner: map<array<byte>, FixedBuffer>

    /** Every buffer ever used is sound, and no two share storage. */
    ghost predicate Pooled()
      reads this`heap, this`owner, heap
    {
      forall b | b in heap ::
        b.data in owner && owner[b.data] == b && b.Valid() && b.data.Length == capacity
    }

    /** Who owns what: the owners are pairwise distinct, storage included, and a missing spare
        buffer means that a full one is waiting in `buffers_`. */
    ghost predicate Owned()
      reads this, heap
    {
      && Pooled()
      && (forall i :: 0 <= i < |buffers| ==> buffers[i] in heap)
      && (forall i, j :: 0 <= i < j < |buffers| ==> buffers[i] != buffers[j])
      && currentBuffer in heap && newBuffer1 in heap && newBuffer2 in heap
      && currentBuffer != newBuffer1 && currentBuffer != newBuffer2 && newBuffer1 != newBuffer2
      && (forall i :: 0 <= i < |buffers| ==>
            buffers[i] != currentBuffer && buffers[i] != nextBuffer && buffers[i] != newBuffer1 && buffers[i] != newBuffer2)
      && (nextBuffer != null ==> nextBuffer in heap)
      && nextBuffer != currentBuffer && nextBuffer != newBuffer1 && nextBuffer != newBuffer2
      && (nextBuffer == null ==> buffers != [])
    }

    /** The buffers hold what the ghost bookkeeping says; every spare one is empty. */
    ghost predicate Stocked()
      reads this, heap, owner.Keys
      requires Owned()
    {
      && Holds(currentBuffer, capacity, current)
      && Spare(newBuffer1, capacity) && Spare(newBuffer2, capacity)
      && (nextBuffer != null ==> Spare(nextBuffer, capacity))
      && |full| == |buffers|
      && (forall i :: 0 <= i < |buffers| ==> Holds(buffers[i], capacity, full[i]))
    }

    ghost predicate Shelved()
      reads this, heap, owner.Keys
    {
      Owned() && Stocked()
    }

    /** Holds whenever the mutex is free. */
    ghost predicate Valid()
      reads this, heap, owner.Keys, output
    {
      Shelved() && Filed(output.View(), written)
    }

    ghost function View(): LoggerSpec.View
      reads this
    {
      LoggerSpec.View(written, full, current, nextBuffer != null, running, phase)
    }

    /** The constructor makes the first two buffers; the log file and the back end's own two
        are made at the head of the thread function. */
    constructor (capacity: nat, file: LogFile, b1: FixedBuffer, b2: FixedBuffer)
      requires Filed(file.View(), []) && Spare(b1, capacity) && Spare(b2, capacity)
      requires b1 != b2 && b1.data != b2.data
      ensures Valid() && View() == INITIAL && this.capacity == capacity
      ensures fresh(heap - {b1, b2}) && fresh(owner.Keys - {b1.data, b2.data}) && output == file
    {
      this.capacity := capacity;
      output := file;
      var a := NewBuffer(capacity);
      var b := NewBuffer(capacity);
      running := true;
      currentBuffer, nextBuffer, newBuffer1, newBuffer2 := a, b, b1, b2;
      buffers := [];
      phase := AtTop;
      written, full, current := [], [], [];
      heap := {a, b, b1, b2};
      owner := map[a.data := a, b.data := b, b1.data := b1, b2.data := b2];
      new;
      assert owner.Keys == {a.data, b.data, b1.data, b2.data};
    }

    /** `append`: one critical section of a producer. */
    method Append(data: Msg)
      requires Valid()
      modifies this, heap, owner.Keys
      ensures Valid() && fresh(heap - old(heap)) && fresh(owner.Keys - old(owner.Keys))
      ensures View() == AppendMsg(capacity, old(View()), data)
    {
      ghost var file := output.View();
      Place(data);
      assert output.View() == file;
    }

    method Place(data: Msg)
      requires Shelved()
      modifies this`buffers, this`full, this`currentBuffer, this`nextBuffer, this`current, this`heap, this`owner
      modifies heap, owner.Keys
      ensures Shelved() && fresh(heap - old(heap)) && fresh(owner.Keys - old(owner.Keys))
      ensures View() == AppendMsg(capacity, old(View()), data)
    {
      if currentBuffer.Fits(|data|) {
        AppendToCurrent(data);
      } else {
        RotateAndAppend(data);
      }
    }

    method RotateAndAppend(data: Msg)
      requires Shelved() && !HasRoom(capacity, |Concat(current)|, |data|)
      modifies this`buffers, this`full, this`currentBuffer, this`nextBuffer, this`current, this`heap, this`owner
      modifies heap, owner.Keys
      ensures Shelved() && fresh(heap - old(heap)) && fresh(owner.Keys - old(owner.Keys))
      ensures View() == AppendMsg(capacity, old(View()), data)
    {
      Rotate();
      AppendToCurrent(data);
    }

    /** The branch of `append` that queues the full buffer. */
    method Rotate()
      requires Shelved()
      modifies this`buffers, this`full, this`currentBuffer, this`nextBuffer, this`current, this`heap, this`owner
      ensures Shelved() && fresh(heap - old(heap)) && fresh(owner.Keys - old(owner.Keys))
      ensures View() == old(View()).(full := old(full) + [old(current)], current := [], hasNext := false)
      ensures Concat(current) == []
    {
      if nextBuffer != null {
        RotateToSpare();
      } else {
        RotateToNew();
      }
    }

    /** The full buffer is queued and the spare one takes its place. */
    method RotateToSpare()
      requires Shelved() && nextBuffer != null
      modifies this`buffers, this`full, this`currentBuffer, this`nextBuffer, this`current
      ensures Shelved() && nextBuffer == null && current == []
      ensures full == old(full) + [old(current)]
    {
      buffers, full := buffers + [currentBuffer], full + [current];
      currentBuffer := nextBuffer;
      nextBuffer := null;
      current := [];
    }

    /** The full buffer is queued and a newly allocated one takes its place. */
    method RotateToNew()
      requires Shelved() && nextBuffer == null
      modifies this`buffers, this`full, this`currentBuffer, this`current, this`heap, this`owner
      ensures Shelved() && nextBuffer == null && current == []
      ensures fresh(heap - old(heap)) && fresh(owner.Keys - old(owner.Keys))
      ensures full == old(full) + [old(current)]
    {
      var b := NewBuffer(capacity);
      heap, owner := heap + {b}, owner[b.data := b];
      Replace(b);
    }

    method Replace(b: FixedBuffer)
      requires Shelved() && nextBuffer == null && b in heap && Spare(b, capacity)
      requires b != currentBuffer && b != newBuffer1 && b != newBuffer2 && b !in buffers
      modifies this`buffers, this`full, this`currentBuffer, this`current
      ensures Shelved() && current == [] && full == old(full) + [old(current)]
    {
      buffers, full := buffers + [currentBuffer], full + [current];
      currentBuffer := b;
      current := [];
    }

    method AppendToCurrent(data: Msg)
      requires Shelved()
      modifies currentBuffer, currentBuffer.data, this`current
      ensures Shelved()
      ensures |Concat(old(current))| <= capacity && View() == old(View()).(current := current)
      ensures current == if HasRoom(capacity, |Concat(old(current))|, |data|) then old(current) + [data] else old(current)
    {
      if currentBuffer.Fits(|data|) {
        ConcatSnoc(current, data);
        current := current + [data];
      }
      currentBuffer.Append(data);
    }

    method Stop()
      requires Valid()
      modifies this`running
      ensures Valid() && View() == old(View()).(running := false)
    {
      running := false;
    }

    /** The loop test of the back end, and the end of the thread if it fails. */
    method Test(exit: Variant, clock: nat -> (nat, nat))
      requires Valid() && phase.AtTop?
      modifies this, heap, output
      ensures Valid() && View() == TestStep(exit, old(View()))
      ensures phase.Exited? ==> FileSpec.Durable(output.View())
    {
      if running {
        phase := Entering;
      } else {
        ThreadExit(exit, clock);
      }
    }

    /** The mutex is taken: wait if nothing is queued, otherwise go through an iteration. */
    method Lock(clock: nat -> (nat, nat))
      requires Valid() && phase.Entering?
      modifies this, heap, output
      ensures Valid() && View() == LockStep(old(View()))
    {
      if buffers == [] {
        phase := Waiting;
      } else {
        phase := AtTop;
        Iterate(clock);
      }
    }

    /** Past the loop: only the flush as written, a last iteration when repaired. */
    method ThreadExit(exit: Variant, clock: nat -> (nat, nat))
      requires Valid() && phase.AtTop? && !running
      modifies this, heap, output
      ensures Valid() && View() == TestStep(exit, old(View())) && FileSpec.Durable(output.View())
    {
      if exit.Repaired? {
        phase := Exited;
        Iterate(clock);
      } else {
        phase := Exited;
        FlushFile(written);
      }
    }

    /** `wait_for` returns, for whatever reason, with the mutex held again. */
    method Awake(clock: nat -> (nat, nat))
      requires Valid() && phase.Waiting?
      modifies this, heap, output
      ensures Valid() && View() == LoggerSpec.Iterate(old(View())).(phase := AtTop)
    {
      phase := AtTop;
      Iterate(clock);
    }

    /** The iteration under the mutex.  Afterwards exactly four buffers are live; they are
        distinct and empty, and all that was collected is on disk. */
    method Iterate(clock: nat -> (nat, nat))
      requires Valid()
      modifies this`buffers, this`currentBuffer, this`nextBuffer, this`newBuffer1, this`newBuffer2
      modifies this`written, this`full, this`current, heap, output
      ensures Valid() && View() == LoggerSpec.Iterate(old(View()))
      ensures heap == old(heap) && owner == old(owner)
      ensures buffers == [] && nextBuffer != null && FileSpec.Durable(output.View())
      ensures currentBuffer.length == nextBuffer.length == newBuffer1.length == newBuffer2.length == 0
    {
      WriteAndRecycle(clock);
    }

    method WriteAndRecycle(clock: nat -> (nat, nat))
      requires Valid()
      modifies this`buffers, this`currentBuffer, this`nextBuffer, this`newBuffer1, this`newBuffer2
      modifies this`written, this`full, this`current, heap, output
      ensures Valid() && buffers == [] && nextBuffer != null && FileSpec.Durable(output.View())
      ensures written == LoggerSpec.Iterate(old(View())).written && full == [] && current == []
      ensures currentBuffer.length == nextBuffer.length == newBuffer1.length == newBuffer2.length == 0
    {
      var toWrite := CollectAndWrite(clock);
      ghost var file := output.View();
      Recycle(toWrite);
      assert output.View() == file;
    }

    method CollectAndWrite(clock: nat -> (nat, nat)) returns (toWrite: seq<FixedBuffer>)
      requires Valid()
      modifies this`buffers, this`currentBuffer, this`nextBuffer, this`newBuffer1, this`newBuffer2
      modifies this`written, this`full, this`current, output
      ensures Collected(toWrite) && full == [] && current == []
      ensures written == old(written + Concat(full) + current)
      ensures Filed(output.View(), written) && FileSpec.Durable(output.View())
    {
      ghost var before, groups := written, full + [current];
      ConcatSnoc(full, current);
      assert before + Concat(full) + current == before + Concat(groups);
      toWrite := Collect();
      WriteOut(toWrite, before, groups, clock);
    }

    /** The state while the collected buffers are being written: the back end has given away its
        first buffer and perhaps its second, in which case at least two were collected. */
    ghost predicate Collected(toWrite: seq<FixedBuffer>)
      reads this`buffers, this`currentBuffer, this`nextBuffer, this`newBuffer1, this`newBuffer2
      reads this`heap, this`owner, heap
    {
      && Pooled()
      && (forall i :: 0 <= i < |toWrite| ==> toWrite[i] in heap)
      && (forall i, j :: 0 <= i < j < |toWrite| ==> toWrite[i] != toWrite[j])
      && (forall i :: 0 <= i < |toWrite| ==>
            toWrite[i] != currentBuffer && toWrite[i] != nextBuffer && toWrite[i] != newBuffer2)
      && buffers == [] && toWrite != []
      && currentBuffer in heap && nextBuffer in heap && currentBuffer != nextBuffer && newBuffer1 == null
      && (newBuffer2 == null ==> |toWrite| >= 2)
      && (newBuffer2 != null ==> newBuffer2 in heap && newBuffer2 != currentBuffer && newBuffer2 != nextBuffer)
      && Spare(currentBuffer, capacity) && Spare(nextBuffer, capacity)
      && (newBuffer2 != null ==> Spare(newBuffer2, capacity))
    }

    /** The pointer moves of the critical section: the current buffer joins the queue, the
        back end's own buffers replace it and a missing spare, the queue is swapped out. */
    method SwapOut() returns (toWrite: seq<FixedBuffer>)
      requires Shelved()
      modifies this`buffers, this`currentBuffer, this`nextBuffer, this`newBuffer1, this`newBuffer2
      ensures Collected(toWrite) && |toWrite| == |full| + 1
      ensures forall i :: 0 <= i < |toWrite| ==> Holds(toWrite[i], capacity, (full + [current])[i])
    {
      buffers := buffers + [currentBuffer];
      currentBuffer := newBuffer1;
      newBuffer1 := null;
      if nextBuffer == null {
        nextBuffer := newBuffer2;
        newBuffer2 := null;
      }
      toWrite := buffers;
      buffers := [];
    }

    /** The swap, with the messages of the collected buffers booked as written. */
    method Collect() returns (toWrite: seq<FixedBuffer>)
      requires Shelved()
      modifies this`buffers, this`currentBuffer, this`nextBuffer, this`newBuffer1, this`newBuffer2
      modifies this`written, this`full, this`current
      ensures Collected(toWrite) && full == [] && current == []
      ensures written == old(written) + Concat(old(full + [current])) && |toWrite| == |old(full)| + 1
      ensures forall i :: 0 <= i < |toWrite| ==> Holds(toWrite[i], capacity, old(full + [current])[i])
    {
      ghost var groups := full + [current];
      toWrite := SwapOut();
      written, full, current := written + Concat(groups), [], [];
    }

    /** Every collected buffer goes to the log file, in order; then the file is flushed. */
    method WriteOut(toWrite: seq<FixedBuffer>, ghost before: seq<Msg>, ghost groups: seq<seq<Msg>>, clock: nat -> (nat, nat))
      requires |groups| == |toWrite| && Filed(output.View(), before)
      requires forall i :: 0 <= i < |toWrite| ==> Holds(toWrite[i], capacity, groups[i])
      modifies output
      ensures Filed(output.View(), before + Concat(groups)) && FileSpec.Durable(output.View())
    {
      var i := 0;
      assert Concat(groups[..0]) == [];
      assert before + [] == before;
      while i < |toWrite|
        invariant 0 <= i <= |toWrite| && Filed(output.View(), before + Concat(groups[..i]))
        modifies output
      {
        WriteOne(toWrite[i], before + Concat(groups[..i]), groups[i], clock(i));
        NextGroup(before, groups, i);
        i := i + 1;
      }
      assert groups[..i] == groups;
      FlushFile(before + Concat(groups));
    }

    method FlushFile(ghost msgs: seq<Msg>)
      requires Filed(output.View(), msgs)
      modifies output
      ensures Filed(output.View(), msgs) && FileSpec.Durable(output.View())
    {
      FileSpec.FlushMakesDurable(output.View());
      output.Flush();
    }

    method WriteOne(b: FixedBuffer, ghost before: seq<Msg>, ghost msgs: seq<Msg>, times: (nat, nat))
      requires Filed(output.View(), before) && Holds(b, capacity, msgs)
      modifies output
      ensures Filed(output.View(), before + msgs)
    {
      var bytes := b.data[..b.length];
      FileSpec.AppendAddsData(output.cfg, output.View(), FileSpec.Event(bytes, times.0, times.1));
      FileSpec.AppendWellFormed(output.cfg, output.View(), FileSpec.Event(bytes, times.0, times.1));
      ConcatAppend(before, msgs);
      output.Append(bytes, times.0, times.1);
    }

    /** At most two written buffers are kept and refill the back end's empty slots. */
    method Recycle(written: seq<FixedBuffer>)
      requires Collected(written) && full == [] && current == []
      modifies this`newBuffer1, this`newBuffer2, heap
      ensures Shelved() && nextBuffer != null && buffers == [] && View() == old(View())
      ensures currentBuffer.length == nextBuffer.length == newBuffer1.length == newBuffer2.length == 0
    {
      var buffersToWrite := written;
      if |buffersToWrite| > 2 {
        buffersToWrite := buffersToWrite[..2];
      }
      if newBuffer1 == null {
        newBuffer1 := buffersToWrite[|buffersToWrite| - 1];
        buffersToWrite := buffersToWrite[..|buffersToWrite| - 1];
        newBuffer1.Reset();
      }
      if newBuffer2 == null {
        newBuffer2 := buffersToWrite[|buffersToWrite| - 1];
        buffersToWrite := buffersToWrite[..|buffersToWrite| - 1];
        newBuffer2.Reset();
      }
    }
  }
}

/** Rolling log files (log/LogFile.cc).  A file is represented by the second it was created in
    (its name) and its bytes; every `time(NULL)` the code reads is a parameter. */
module LogFileSpec {
  import opened Basics

  const ROLL_PER_SECONDS: nat := 24 * 60 * 60

  /** `onDisk` counts the bytes past the stdio buffer. */
  datatype File = File(created: nat, data: seq<byte>, onDisk: nat)

  datatype Config = Config(rollsize: nat, flushInterval: nat, checkEveryN: nat)

  datatype LogState = LogState(files: seq<File>, count: nat, startOfPeriod: nat, lastRoll: nat, lastFlush: nat)

  /** One append with the two clock reads it may make: its own and the one inside `rollFile`. */
  datatype Event = Event(data: seq<byte>, now: nat, rollNow: nat)

  function Period(t: nat): nat {
    t / ROLL_PER_SECONDS * ROLL_PER_SECONDS
  }

  function Current(s: LogState): File
    requires s.files != []
  {
    s.files[|s.files| - 1]
  }

  function WithCurrent(s: LogState, f: File): (r: LogState)
    requires s.files != []
    ensures |r.files| == |s.files|
  {
    s.(files := s.files[|s.files| - 1 := f])
  }

  function Flush(s: LogState): LogState
    requires s.files != []
  {
    WithCurrent(s, Current(s).(onDisk := |Current(s).data|))
  }

  /** `rollFile`: replacing the file object closes, and so flushes, the old one. */
  function Roll(s: LogState, now: nat): LogState {
    if now > s.lastRoll then
      var closed := if s.files == [] then s else Flush(s);
      LogState(closed.files + [File(now, [], 0)], s.count, Period(now), now, now)
    else s
  }

  predicate SizeRollDue(cfg: Config, s: LogState, e: Event)
    requires s.files != []
  {
    |Current(s).data| + |e.data| > cfg.rollsize
  }

  /** The bytes reach the current file and are counted. */
  function Written(s: LogState, data: seq<byte>): (r: LogState)
    requires s.files != []
    ensures r.files != []
  {
    WithCurrent(s, Current(s).(data := Current(s).data + data)).(count := s.count + 1)
  }

  /** The roll decision of `appendInLock`: on size, else every `checkEveryN_` appends on period. */
  function Rolled(cfg: Config, s: LogState, e: Event): (r: LogState)
    requires s.files != []
    ensures r.files != []
  {
    if |Current(s).data| > cfg.rollsize then Roll(s, e.rollNow)
    else if s.count >= cfg.checkEveryN then
      var reset := s.(count := 0);
      if Period(e.now) != s.startOfPeriod then Roll(reset, e.rollNow) else reset
    else s
  }

  /** `appendInLock`. */
  function Append(cfg: Config, s: LogState, e: Event): (r: LogState)
    requires s.files != []
    ensures r.files != []
  {
    var r := Rolled(cfg, Written(s, e.data), e);
    if e.now - r.lastFlush > cfg.flushInterval then Flush(r.(lastFlush := e.now)) else r
  }

  function New(now: nat): LogState {
    Roll(LogState([], 0, 0, 0, 0), now)
  }

  function Run(cfg: Config, s: LogState, es: seq<Event>): (r: LogState)
    requires s.files != []
    ensures r.files != []
    decreases es
  {
    if es == [] then s else Run(cfg, Append(cfg, s, es[0]), es[1..])
  }

  // ---------------------------------------------------------------- no byte lost, in order

  function FileData(files: seq<File>): seq<byte> {
    if files == [] then [] else FileData(files[..|files| - 1]) + files[|files| - 1].data
  }

  /** All bytes of all files, in creation order. */
  function AllData(s: LogState): seq<byte> {
    FileData(s.files)
  }

  lemma {:induction false} FlushKeepsData(s: LogState)
    requires s.files != []
    ensures AllData(Flush(s)) == AllData(s)
  {
    assert Flush(s).files[..|s.files| - 1] == s.files[..|s.files| - 1];
  }

  lemma RollKeepsData(s: LogState, now: nat)
    requires s.files != []
    ensures AllData(Roll(s, now)) == AllData(s)
  {
    if now > s.lastRoll {
      FlushKeepsData(s);
      var r := Roll(s, now);
      assert r.files[..|r.files| - 1] == Flush(s).files;
    }
  }

  lemma WrittenAddsData(s: LogState, data: seq<byte>)
    requires s.files != []
    ensures AllData(Written(s, data)) == AllData(s) + data
  {
    var w := Written(s, data);
    assert w.files[..|w.files| - 1] == s.files[..|s.files| - 1];
    Associative(FileData(s.files[..|s.files| - 1]), Current(s).data, data);
  }

  lemma RolledKeepsData(cfg: Config, s: LogState, e: Event)
    requires s.files != []
    ensures AllData(Rolled(cfg, s, e)) == AllData(s)
  {
    RollKeepsData(s, e.rollNow);
    RollKeepsData(s.(count := 0), e.rollNow);
  }

  lemma AppendAddsData(cfg: Config, s: LogState, e: Event)
    requires s.files != []
    ensures AllData(Append(cfg, s, e)) == AllData(s) + e.data
  {
    var w := Written(s, e.data);
    var r := Rolled(cfg, w, e);
    WrittenAddsData(s, e.data);
    RolledKeepsData(cfg, w, e);
    FlushKeepsData(r.(lastFlush := e.now));
  }

  function Payloads(es: seq<Event>): seq<byte> {
    if es == [] then [] else es[0].data + Payloads(es[1..])
  }

  /** Whatever the clock does, the files concatenate to everything appended. */
  lemma {:induction false} RunConservesData(cfg: Config, s: LogState, es: seq<Event>)
    requires s.files != []
    ensures AllData(Run(cfg, s, es)) == AllData(s) + Payloads(es)
    decreases es
  {
    if es != [] {
      AppendAddsData(cfg, s, es[0]);
      RunConservesData(cfg, Append(cfg, s, es[0]), es[1..]);
      Associative(AllData(s), es[0].data, Payloads(es[1..]));
    }
  }

  // ---------------------------------------------------------------- rolling

  /** Files are created at strictly increasing seconds, only the last may hold unflushed bytes,
      and the bookkeeping fields describe the last roll. */
  ghost predicate WellFormed(s: LogState) {
    && s.files != []
    && Current(s).created == s.lastRoll
    && s.startOfPeriod == Period(s.lastRoll)
    && (forall i, j :: 0 <= i < j < |s.files| ==> s.files[i].created < s.files[j].created)
    && (forall i :: 0 <= i < |s.files| - 1 ==> s.files[i].onDisk == |s.files[i].data|)
    && Current(s).onDisk <= |Current(s).data|
  }

  /** The clock never runs backwards from `t` on. */
  predicate ClockFrom(t: nat, es: seq<Event>)
    decreases es
  {
    es == [] || (t <= es[0].now <= es[0].rollNow && ClockFrom(es[0].rollNow, es[1..]))
  }

  lemma RollWellFormed(s: LogState, now: nat)
    requires WellFormed(s)
    ensures WellFormed(Roll(s, now))
  {
  }

  lemma WrittenWellFormed(s: LogState, data: seq<byte>)
    requires WellFormed(s)
    ensures WellFormed(Written(s, data))
  {
  }

  lemma RolledWellFormed(cfg: Config, s: LogState, e: Event)
    requires WellFormed(s)
    ensures WellFormed(Rolled(cfg, s, e))
  {
    var reset := s.(count := 0);
    assert WellFormed(reset);
    RollWellFormed(s, e.rollNow);
    RollWellFormed(reset, e.rollNow);
  }

  /** Nothing is left in a stdio buffer. */
  ghost predicate Durable(s: LogState) {
    forall i :: 0 <= i < |s.files| ==> s.files[i].onDisk == |s.files[i].data|
  }

  lemma FlushMakesDurable(s: LogState)
    requires WellFormed(s)
    ensures WellFormed(Flush(s)) && Durable(Flush(s)) && AllData(Flush(s)) == AllData(s)
  {
    FlushKeepsData(s);
  }

  lemma AppendWellFormed(cfg: Config, s: LogState, e: Event)
    requires WellFormed(s)
    ensures WellFormed(Append(cfg, s, e))
  {
    var w := Written(s, e.data);
    var r := Rolled(cfg, w, e);
    WrittenWellFormed(s, e.data);
    RolledWellFormed(cfg, w, e);
    assert WellFormed(r.(lastFlush := e.now));
    FlushMakesDurable(r.(lastFlush := e.now));
  }

  /** After an append at a clock that did not run backwards, the current file is within the
      size limit or was created in this very second, and a due flush has happened. */
  lemma AppendBoundsFile(cfg: Config, s: LogState, e: Event)
    requires WellFormed(s) && s.lastRoll <= e.now <= e.rollNow
    ensures var r := Append(cfg, s, e);
            && r.lastRoll <= e.rollNow
            && (|Current(r).data| <= cfg.rollsize || Current(r).created == e.rollNow)
            && e.now - r.lastFlush <= cfg.flushInterval
  {
  }

  /** A flush that is due empties the stdio buffers, whether or not the append also rolls. */
  lemma DueFlushHappens(cfg: Config, s: LogState, e: Event)
    requires WellFormed(s) && s.lastRoll <= e.now <= e.rollNow && e.now - s.lastFlush > cfg.flushInterval
    ensures Durable(Append(cfg, s, e))
  {
    var w := Written(s, e.data);
    var r := Rolled(cfg, w, e);
    WrittenWellFormed(s, e.data);
    RolledWellFormed(cfg, w, e);
    if e.now - r.lastFlush > cfg.flushInterval {
      assert WellFormed(r.(lastFlush := e.now));
      FlushMakesDurable(r.(lastFlush := e.now));
    } else {
      assert Current(r).data == [];
    }
  }

  // ---------------------------------------------------------------- no roll without a reason

  const SECONDS_PER_DAY: nat := 86400

  /** When an append starts a new file, in terms of sizes and days alone: the clock has passed
      the last roll, and the file with the new bytes is too large or, on a counted append, the
      day is not the one the period started on. */
  predicate NewFileDue(cfg: Config, s: LogState, e: Event)
    requires s.files != []
  {
    && e.rollNow > s.lastRoll
    && (|s.files[|s.files| - 1].data| + |e.data| > cfg.rollsize
        || (s.count + 1 >= cfg.checkEveryN && e.now / SECONDS_PER_DAY * SECONDS_PER_DAY != s.startOfPeriod))
  }

  /** An append adds a file if and only if one is due; then the old file is complete and the new
      one empty, otherwise files keep their creation times and only the last one grows. */
  lemma AppendRollsIff(cfg: Config, s: LogState, e: Event)
    requires WellFormed(s)
    ensures var r, n := Append(cfg, s, e), |s.files|; var all := s.files[n - 1].data + e.data;
            && |r.files| == (if NewFileDue(cfg, s, e) then n + 1 else n)
            && (forall i :: 0 <= i < n ==> r.files[i].created == s.files[i].created)
            && (forall i :: 0 <= i < n - 1 ==> r.files[i] == s.files[i])
            && r.files[n - 1].data == all
            && (NewFileDue(cfg, s, e) ==> r.files[n].created == e.rollNow && r.files[n].data == [] && r.files[n - 1].onDisk == |all|)
  {
  }

  /** The count starts again on a counted append that does not roll on size. */
  lemma AppendCounts(cfg: Config, s: LogState, e: Event)
    requires WellFormed(s)
    ensures Append(cfg, s, e).count ==
            if |s.files[|s.files| - 1].data| + |e.data| <= cfg.rollsize && s.count + 1 >= cfg.checkEveryN then 0 else s.count + 1
  {
  }

  /** Bytes leave the stdio buffer on an append if and only if a flush is due or the file is
      closed, and the time of the last flush moves with them. */
  lemma AppendFlushesIff(cfg: Config, s: LogState, e: Event)
    requires WellFormed(s)
    ensures var r, n := Append(cfg, s, e), |s.files|;
            var last := if NewFileDue(cfg, s, e) then e.rollNow else s.lastFlush;
            var due := e.now - last > cfg.flushInterval;
            && r.lastFlush == (if due then e.now else last)
            && r.files[n - 1].onDisk == (if due || NewFileDue(cfg, s, e) then |s.files[n - 1].data| + |e.data| else s.files[n - 1].onDisk)
  {
  }

  /** Every file but the last grew past the size limit, or the next one is of a later day. */
  ghost predicate Justified(cfg: Config, s: LogState) {
    forall i :: 0 <= i < |s.files| - 1 ==>
      |s.files[i].data| > cfg.rollsize || s.files[i].created / SECONDS_PER_DAY < s.files[i + 1].created / SECONDS_PER_DAY
  }

  lemma LaterDay(a: nat, b: nat)
    requires a <= b && b / SECONDS_PER_DAY * SECONDS_PER_DAY != a / SECONDS_PER_DAY * SECONDS_PER_DAY
    ensures a / SECONDS_PER_DAY < b / SECONDS_PER_DAY
  {
    DayMonotone(a, b);
  }

  lemma DayMonotone(a: nat, b: nat)
    requires a <= b
    ensures a / SECONDS_PER_DAY <= b / SECONDS_PER_DAY
  {
  }

  lemma AppendJustified(cfg: Config, s: LogState, e: Event)
    requires WellFormed(s) && Justified(cfg, s) && s.lastRoll <= e.now <= e.rollNow
    ensures Justified(cfg, Append(cfg, s, e))
  {
    AppendRollsIff(cfg, s, e);
    var r, n := Append(cfg, s, e), |s.files|;
    if NewFileDue(cfg, s, e) && |r.files[n - 1].data| <= cfg.rollsize {
      LaterDay(s.files[n - 1].created, e.now);
      DayMonotone(e.now, e.rollNow);
    }
    forall i | 0 <= i < |r.files| - 1
      ensures |r.files[i].data| > cfg.rollsize || r.files[i].created / SECONDS_PER_DAY < r.files[i + 1].created / SECONDS_PER_DAY
    {
      if i < n - 1 {
        assert r.files[i] == s.files[i] && r.files[i + 1].created == s.files[i + 1].created;
      }
    }
  }

  /** Over every run under a forward clock no file is closed early: it is over the size limit, or
      its successor belongs to a later day. */
  lemma {:induction false} RunRollsJustified(cfg: Config, s: LogState, es: seq<Event>, t: nat)
    requires WellFormed(s) && Justified(cfg, s) && s.lastRoll <= t && ClockFrom(t, es)
    ensures Justified(cfg, Run(cfg, s, es))
    decreases es
  {
    if es != [] {
      AppendWellFormed(cfg, s, es[0]);
      AppendBoundsFile(cfg, s, es[0]);
      AppendJustified(cfg, s, es[0]);
      RunRollsJustified(cfg, Append(cfg, s, es[0]), es[1..], es[0].rollNow);
    }
  }

  /** The append tried to roll on size, or left `startOfPeriod_` at a period the clock showed. */
  predicate Checked(cfg: Config, s: LogState, e: Event)
    requires s.files != []
  {
    SizeRollDue(cfg, s, e) || Append(cfg, s, e).startOfPeriod in {Period(e.now), Period(e.rollNow)}
  }

  lemma AppendChecksOrCounts(cfg: Config, s: LogState, e: Event)
    requires WellFormed(s) && s.lastRoll <= e.now <= e.rollNow
    ensures Checked(cfg, s, e) || (Append(cfg, s, e).count == s.count + 1 && s.count + 1 < cfg.checkEveryN)
  {
  }

  lemma RunPrefix(cfg: Config, s: LogState, es: seq<Event>, k: nat)
    requires s.files != [] && 0 < k <= |es|
    ensures Run(cfg, s, es[..k]) == Run(cfg, Append(cfg, s, es[0]), es[1..][..k - 1])
  {
    assert es[..k][1..] == es[1..][..k - 1];
  }

  /** Every state of a run under a forward clock: files stay ordered and bounded. */
  lemma {:induction false} RunBoundsFiles(cfg: Config, s: LogState, es: seq<Event>, t: nat, k: nat)
    requires WellFormed(s) && s.lastRoll <= t && ClockFrom(t, es) && k < |es|
    ensures var r := Run(cfg, s, es[..k + 1]);
            && WellFormed(r)
            && (|Current(r).data| <= cfg.rollsize || Current(r).created == es[k].rollNow)
            && es[k].now - r.lastFlush <= cfg.flushInterval
    decreases k
  {
    AppendWellFormed(cfg, s, es[0]);
    AppendBoundsFile(cfg, s, es[0]);
    RunPrefix(cfg, s, es, k + 1);
    if k > 0 {
      assert es[1..][..k - 1 + 1] == es[1..][..k];
      RunBoundsFiles(cfg, Append(cfg, s, es[0]), es[1..], es[0].rollNow, k - 1);
    }
  }

  /** Within any `checkEveryN_` consecutive appends one is a checked one. */
  lemma {:induction false} CheckedEveryN(cfg: Config, s: LogState, es: seq<Event>, t: nat) returns (k: nat)
    requires WellFormed(s) && s.lastRoll <= t && ClockFrom(t, es)
    requires es != [] && |es| + s.count >= cfg.checkEveryN
    ensures k < |es| && Checked(cfg, Run(cfg, s, es[..k]), es[k])
    decreases es
  {
    k := 0;
    assert es[..0] == [];
    if !Checked(cfg, s, es[0]) {
      AppendChecksOrCounts(cfg, s, es[0]);
      AppendWellFormed(cfg, s, es[0]);
      AppendBoundsFile(cfg, s, es[0]);
      var k' := CheckedEveryN(cfg, Append(cfg, s, es[0]), es[1..], es[0].rollNow);
      k := k' + 1;
      RunPrefix(cfg, s, es, k);
    }
  }

  lemma NewWellFormed(now: nat)
    requires now > 0
    ensures WellFormed(New(now)) && New(now).lastRoll == now && AllData(New(now)) == []
  {
    assert New(now).files == [File(now, [], 0)];
    var fs := New(now).files;
    assert fs == [File(now, [], 0)];
    assert FileData(fs) == FileData(fs[..|fs| - 1]) + fs[|fs| - 1].data;
  }
}

/** The log file object; every method computes the function of `LogFileSpec` it is named after. */
module LogFiles {
  import opened Basics
  import Spec = LogFileSpec

  class LogFile {
    const cfg: Spec.Config
    var files: seq<Spec.File>
    var count: nat
    var startOfPeriod: nat
    var lastRoll: nat
    var lastFlush: nat

    ghost function View(): Spec.LogState
      reads this
    {
      Spec.LogState(files, count, startOfPeriod, lastRoll, lastFlush)
    }

    ghost predicate Open()
      reads this
    {
      files != []
    }

    /** `now` is the clock read of the first `rollFile`; only past second 0 does it open a file. */
    constructor (cfg: Spec.Config, now: nat)
      requires now > 0
      ensures this.cfg == cfg && Open() && View() == Spec.New(now)
    {
      this.cfg := cfg;
      files, count, startOfPeriod, lastRoll, lastFlush := [], 0, 0, 0, 0;
      new;
      var rolled := RollFile(now);
    }

    method Append(data: seq<byte>, now: nat, rollNow: nat)
      requires Open()
      modifies this
      ensures Open() && View() == Spec.Append(cfg, old(View()), Spec.Event(data, now, rollNow))
    {
      var last := |files| - 1;
      files := files[last := files[last].(data := files[last].data + data)];
      count := count + 1;
      if |files[last].data| > cfg.rollsize {
        var rolled := RollFile(rollNow);
      } else if count >= cfg.checkEveryN {
        count := 0;
        var thisPeriod := now / Spec.ROLL_PER_SECONDS * Spec.ROLL_PER_SECONDS;
        if thisPeriod != startOfPeriod {
          var rolled := RollFile(rollNow);
        }
      }
      if now - lastFlush > cfg.flushInterval {
        lastFlush := now;
        Flush();
      }
    }

    method Flush()
      requires Open()
      modifies this`files
      ensures Open() && View() == Spec.Flush(old(View()))
    {
      var last := |files| - 1;
      files := files[last := files[last].(onDisk := |files[last].data|)];
    }

    method RollFile(now: nat) returns (rolled: bool)
      modifies this
      ensures View() == Spec.Roll(old(View()), now)
      ensures rolled <==> now > old(lastRoll)
    {
      rolled := now > lastRoll;
      if rolled {
        if files != [] {
          Flush();
        }
        lastFlush, lastRoll := now, now;
        startOfPeriod := now / Spec.ROLL_PER_SECONDS * Spec.ROLL_PER_SECONDS;
        files := files + [Spec.File(now, [], 0)];
      }
    }
  }
}

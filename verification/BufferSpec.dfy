/** The sliding network buffer (include/Buffer.h, src/Buffer.cc).

    `Buf` is the exact abstract state: every byte of the vector and both indices.  The lemmas
    show that it behaves as a byte queue, and when the scatter read and the write conserve the
    stream; `NetBuffer.Buffer` is the in-place implementation of these functions. */
module BufferSpec {
  import opened Basics

  /** Bytes always left free in front of the data. */
  const CHEAP_PREPEND: nat := 8
  /** Size of the stack buffer that takes what does not fit in place. */
  const EXTRA_BUFFER: nat := 65536

  datatype RawBuf = RawBuf(data: seq<byte>, reader: nat, writer: nat) {
    predicate InBounds() {
      CHEAP_PREPEND <= reader <= writer <= |data|
    }
  }

  type Buf = b: RawBuf | b.InBounds() witness RawBuf(Zeros(8), 8, 8)

  /** The queue the buffer stands for. */
  function Readable(b: Buf): seq<byte> {
    b.data[b.reader..b.writer]
  }

  function WritableBytes(b: Buf): nat {
    |b.data| - b.writer
  }

  function EmptyBuf(initialSize: nat): Buf {
    RawBuf(Zeros(CHEAP_PREPEND + initialSize), CHEAP_PREPEND, CHEAP_PREPEND)
  }

  function Retrieve(b: Buf, len: nat): Buf {
    if len < |Readable(b)| then b.(reader := b.reader + len)
    else b.(reader := CHEAP_PREPEND, writer := CHEAP_PREPEND)
  }

  /** Whether `makeSpace` has to grow the vector: sliding would not free enough room. */
  predicate MustGrow(b: Buf, len: nat) {
    WritableBytes(b) + b.reader - CHEAP_PREPEND < len
  }

  function MakeSpace(b: Buf, len: nat): Buf
    requires WritableBytes(b) < len
  {
    if MustGrow(b, len) then
      b.(data := b.data + Zeros(b.writer + len - |b.data|))
    else
      var end := CHEAP_PREPEND + |Readable(b)|;
      RawBuf(b.data[..CHEAP_PREPEND] + Readable(b) + b.data[end..], CHEAP_PREPEND, end)
  }

  function EnsureWritable(b: Buf, len: nat): (r: Buf)
    ensures WritableBytes(r) >= len
  {
    if WritableBytes(b) < len then MakeSpace(b, len) else b
  }

  /** `s` with `d` written over it from position `at`. */
  function Overwrite(s: seq<byte>, at: nat, d: seq<byte>): (r: seq<byte>)
    requires at + |d| <= |s|
    ensures |r| == |s|
  {
    s[..at] + d + s[at + |d|..]
  }

  function Append(b: Buf, d: seq<byte>): Buf {
    var e := EnsureWritable(b, |d|);
    RawBuf(Overwrite(e.data, e.writer, d), e.reader, e.writer + |d|)
  }

  // ---------------------------------------------------------------- refinement of a byte queue

  /** `makeSpace` frees the requested room and keeps the readable bytes; it slides only when
      the data starts past the prepend area, so the overlapping copy always moves leftward. */
  lemma MakeSpaceKeepsQueue(b: Buf, len: nat)
    requires WritableBytes(b) < len
    ensures WritableBytes(MakeSpace(b, len)) >= len
    ensures Readable(MakeSpace(b, len)) == Readable(b)
    ensures !MustGrow(b, len) ==> b.reader > CHEAP_PREPEND && |MakeSpace(b, len).data| == |b.data|
  {
    if !MustGrow(b, len) {
      assert Readable(MakeSpace(b, len)) == Readable(b);
    }
  }

  /** Appending is enqueueing, whichever way room was made. */
  lemma AppendEnqueues(b: Buf, d: seq<byte>)
    ensures Readable(Append(b, d)) == Readable(b) + d
  {
    var e := EnsureWritable(b, |d|);
    if WritableBytes(b) < |d| {
      MakeSpaceKeepsQueue(b, |d|);
    }
    assert Readable(e) == Readable(b);
    var r := Append(b, d);
    assert r.data[r.reader..r.writer] == e.data[e.reader..e.writer] + d;
  }

  /** Retrieving is dequeueing; asking for more than there is empties the queue. */
  lemma RetrieveDequeues(b: Buf, len: nat)
    ensures Readable(Retrieve(b, len)) == Readable(b)[Min(len, |Readable(b)|)..]
  {
  }

  /** An emptied buffer gets all its room back; otherwise only the data in front goes. */
  lemma RetrieveFreesRoom(b: Buf, len: nat)
    ensures var r := Retrieve(b, len);
            && r.data == b.data
            && (len >= |Readable(b)| ==> WritableBytes(r) == |b.data| - 8)
            && (len < |Readable(b)| ==> WritableBytes(r) == WritableBytes(b))
  {
  }

  /** One append grows the vector only when it is less than half full of live data afterwards. */
  lemma AppendSpace(b: Buf, d: seq<byte>)
    ensures |Append(b, d).data| <= Max(|b.data|, 2 * |Readable(Append(b, d))| + CHEAP_PREPEND - 1)
  {
    AppendEnqueues(b, d);
  }

  // ---------------------------------------------------------------- scatter read

  /** How many bytes one `readv` may deliver. */
  function ReadCapacity(b: Buf): nat {
    WritableBytes(b) + (if WritableBytes(b) < EXTRA_BUFFER then EXTRA_BUFFER else 0)
  }

  /** One read has room for 64 KiB however full the buffer is, and uses the stack buffer only if
      the vector itself has less. */
  lemma ReadRoom(b: Buf)
    ensures ReadCapacity(b) >= 65536
    ensures ReadCapacity(b) == if |b.data| - b.writer >= 65536 then |b.data| - b.writer else |b.data| - b.writer + 65536
  {
  }

  /** The vector after the kernel filled the in-place span with the head of `stream`. */
  function Landed(b: Buf, stream: seq<byte>): seq<byte> {
    Overwrite(b.data, b.writer, stream[..Min(|stream|, WritableBytes(b))])
  }

  /** The bytes that went to the stack buffer. */
  function Spill(b: Buf, stream: seq<byte>): seq<byte> {
    stream[Min(|stream|, WritableBytes(b))..]
  }

  /** `readFd` as written: the spill is appended without first moving the write index. */
  function ReadFd(b: Buf, stream: seq<byte>): Buf {
    var landed := b.(data := Landed(b, stream));
    if |stream| < WritableBytes(b) then landed.(writer := b.writer + |stream|)
    else Append(landed, Spill(b, stream))
  }

  /** `readFd` with the missing line: the write index first moves to the end of the vector. */
  function ReadFdRepaired(b: Buf, stream: seq<byte>): Buf {
    var landed := b.(data := Landed(b, stream));
    if |stream| < WritableBytes(b) then landed.(writer := b.writer + |stream|)
    else Append(landed.(writer := |b.data|), Spill(b, stream))
  }

  /** The repaired read enqueues exactly what was received, for every count. */
  lemma RepairedReadEnqueues(b: Buf, stream: seq<byte>)
    ensures Readable(ReadFdRepaired(b, stream)) == Readable(b) + stream
  {
    var landed := b.(data := Landed(b, stream));
    var k := Min(|stream|, WritableBytes(b));
    assert stream == stream[..k] + stream[k..];
    if |stream| < WritableBytes(b) {
      assert stream[..k] == stream;
    } else {
      AppendEnqueues(landed.(writer := |b.data|), Spill(b, stream));
      assert Readable(landed.(writer := |b.data|)) == Readable(b) + stream[..k];
    }
  }

  /** The read as written: complete below the in-place span, otherwise only the spill arrives. */
  lemma ReadFdExact(b: Buf, stream: seq<byte>)
    ensures Readable(ReadFd(b, stream)) ==
            Readable(b) + (if |stream| < WritableBytes(b) then stream else stream[WritableBytes(b)..])
  {
    var landed := b.(data := Landed(b, stream));
    if |stream| < WritableBytes(b) {
      assert stream[..Min(|stream|, WritableBytes(b))] == stream;
    } else {
      assert Readable(landed) == Readable(b);
      AppendEnqueues(landed, Spill(b, stream));
    }
  }

  /** Exactly when the read as written loses nothing. */
  lemma ReadFdLosslessIff(b: Buf, stream: seq<byte>)
    ensures Readable(ReadFd(b, stream)) == Readable(b) + stream
            <==> |stream| < WritableBytes(b) || WritableBytes(b) == 0
  {
    ReadFdExact(b, stream);
    if |stream| >= WritableBytes(b) {
      if WritableBytes(b) == 0 {
        assert stream[0..] == stream;
      } else {
        assert |Readable(b) + stream[WritableBytes(b)..]| < |Readable(b) + stream|;
      }
    }
  }

  /** A concrete loss: two bytes into a buffer with one writable byte leave only the second. */
  lemma ReadFdLosesBytes()
    ensures Readable(ReadFd(EmptyBuf(1), [65, 66])) == [66]
  {
    ReadFdExact(EmptyBuf(1), [65, 66]);
    assert [65, 66][1..] == [66 as byte];
  }

  /** What a read does, in either form. */
  function ReadInto(io: Variant, b: Buf, stream: seq<byte>): Buf {
    if io.Repaired? then ReadFdRepaired(b, stream) else ReadFd(b, stream)
  }

  /** The read misses the lossy branch: it is repaired, or short of the in-place span, or there
      is no in-place span. */
  predicate Whole(io: Variant, b: Buf, stream: seq<byte>) {
    io.Repaired? || |stream| < WritableBytes(b) || WritableBytes(b) == 0
  }

  /** That is exactly when it loses nothing; a suffix of the stream always arrives. */
  lemma ReadWholeIff(io: Variant, b: Buf, stream: seq<byte>)
    ensures Readable(ReadInto(io, b, stream)) == Readable(b) + stream <==> Whole(io, b, stream)
    ensures exists k: nat :: k <= |stream| && Readable(ReadInto(io, b, stream)) == Readable(b) + stream[k..]
  {
    if io.Repaired? {
      RepairedReadEnqueues(b, stream);
      assert stream[0..] == stream;
    } else {
      ReadFdLosslessIff(b, stream);
      ReadFdExact(b, stream);
      assert stream[0..] == stream;
    }
  }

  /** A read obeys the bound of an append. */
  lemma ReadSpace(io: Variant, b: Buf, stream: seq<byte>)
    ensures var r := ReadInto(io, b, stream);
            |r.data| <= Max(|b.data|, 2 * |Readable(r)| + CHEAP_PREPEND - 1)
  {
    var landed := b.(data := Landed(b, stream));
    AppendSpace(landed, Spill(b, stream));
    AppendSpace(landed.(writer := |b.data|), Spill(b, stream));
  }

  // ---------------------------------------------------------------- runs of operations

  datatype Op = AppendOp(bytes: seq<byte>) | ReadOp(bytes: seq<byte>) | RetrieveOp(len: nat)

  function Apply(io: Variant, b: Buf, op: Op): Buf {
    match op
    case AppendOp(bytes) => Append(b, bytes)
    case ReadOp(bytes) => ReadInto(io, b, bytes)
    case RetrieveOp(len) => Retrieve(b, len)
  }

  function Run(io: Variant, b: Buf, ops: seq<Op>): Buf
    decreases ops
  {
    if ops == [] then b else Run(io, Apply(io, b, ops[0]), ops[1..])
  }

  /** The reference: the same operations on a plain queue. */
  function QueueApply(q: seq<byte>, op: Op): seq<byte> {
    if op.RetrieveOp? then q[Min(op.len, |q|)..] else q + op.bytes
  }

  function QueueRun(q: seq<byte>, ops: seq<Op>): seq<byte>
    decreases ops
  {
    if ops == [] then q else QueueRun(QueueApply(q, ops[0]), ops[1..])
  }

  /** No read of the run meets the missing index move. */
  predicate AllWhole(io: Variant, b: Buf, ops: seq<Op>)
    decreases ops
  {
    ops == [] || ((ops[0].ReadOp? ==> Whole(io, b, ops[0].bytes)) && AllWhole(io, Apply(io, b, ops[0]), ops[1..]))
  }

  /** The queue length after an operation that adds bytes. */
  function Added(op: Op, r: Buf): nat {
    if op.RetrieveOp? then 0 else |Readable(r)|
  }

  /** The largest queue length seen just after bytes were added in the run. */
  function Peak(io: Variant, b: Buf, ops: seq<Op>): nat
    decreases ops
  {
    if ops == [] then 0 else
      var b' := Apply(io, b, ops[0]);
      Max(Added(ops[0], b'), Peak(io, b', ops[1..]))
  }

  lemma {:induction false} RepairedAllWhole(b: Buf, ops: seq<Op>)
    ensures AllWhole(Repaired, b, ops)
    decreases ops
  {
    if ops != [] {
      RepairedAllWhole(Apply(Repaired, b, ops[0]), ops[1..]);
    }
  }

  /** Every run of appends, reads and retrieves is the same run on a plain queue, as long as no
      read loses bytes. */
  lemma {:induction false} RunRefinesQueue(io: Variant, b: Buf, ops: seq<Op>)
    requires AllWhole(io, b, ops)
    ensures Readable(Run(io, b, ops)) == QueueRun(Readable(b), ops)
    decreases ops
  {
    if ops != [] {
      match ops[0] {
        case AppendOp(bytes) => AppendEnqueues(b, bytes);
        case ReadOp(bytes) => ReadWholeIff(io, b, bytes);
        case RetrieveOp(len) => RetrieveDequeues(b, len);
      }
      RunRefinesQueue(io, Apply(io, b, ops[0]), ops[1..]);
    }
  }

  lemma OpSpace(io: Variant, b: Buf, op: Op)
    ensures var r := Apply(io, b, op);
            |r.data| <= Max(|b.data|, 2 * Added(op, r) + CHEAP_PREPEND - 1)
  {
    match op
    case AppendOp(bytes) => AppendSpace(b, bytes);
    case ReadOp(bytes) => ReadSpace(io, b, bytes);
    case RetrieveOp(_) =>
  }

  lemma BoundsChain(first: nat, second: nat, last: nat, p: nat, q: nat)
    requires second <= Max(first, 2 * p + CHEAP_PREPEND - 1) && last <= Max(second, 2 * q + CHEAP_PREPEND - 1)
    ensures last <= Max(first, 2 * Max(p, q) + CHEAP_PREPEND - 1)
  {
  }

  /** The space bound: the vector never exceeds its first size or twice the peak plus seven. */
  lemma {:induction false} SpaceBound(io: Variant, b: Buf, ops: seq<Op>)
    ensures |Run(io, b, ops).data| <= Max(|b.data|, 2 * Peak(io, b, ops) + CHEAP_PREPEND - 1)
    decreases ops
  {
    if ops != [] {
      var b' := Apply(io, b, ops[0]);
      OpSpace(io, b, ops[0]);
      SpaceBound(io, b', ops[1..]);
      BoundsChain(|b.data|, |b'.data|, |Run(io, b', ops[1..]).data|, Added(ops[0], b'), Peak(io, b', ops[1..]));
    }
  }

  /** From a newly constructed buffer every run stays within the bound, and is a queue run
      unless a read of the code as written loses bytes. */
  lemma EveryRunFromNew(io: Variant, initialSize: nat, ops: seq<Op>)
    ensures var b := EmptyBuf(initialSize);
            && |Run(io, b, ops).data| <= Max(CHEAP_PREPEND + initialSize, 2 * Peak(io, b, ops) + CHEAP_PREPEND - 1)
            && (io.Repaired? || AllWhole(io, b, ops) ==> Readable(Run(io, b, ops)) == QueueRun([], ops))
  {
    SpaceBound(io, EmptyBuf(initialSize), ops);
    if io.Repaired? || AllWhole(io, EmptyBuf(initialSize), ops) {
      RefinesFromNew(io, initialSize, ops);
    }
  }

  lemma RefinesFromNew(io: Variant, initialSize: nat, ops: seq<Op>)
    requires io.Repaired? || AllWhole(io, EmptyBuf(initialSize), ops)
    ensures Readable(Run(io, EmptyBuf(initialSize), ops)) == QueueRun([], ops)
  {
    var b := EmptyBuf(initialSize);
    assert Readable(b) == [];
    if io.Repaired? {
      RepairedAllWhole(b, ops);
    }
    RunRefinesQueue(io, b, ops);
  }

  // ---------------------------------------------------------------- gathering write

  /** The span `writeFd` hands to the kernel as written: the free space, not the data. */
  function WriteSpan(b: Buf): seq<byte> {
    b.data[b.writer..]
  }

  lemma SentIsPrefix(sent: seq<byte>, q: seq<byte>)
    ensures sent + q[Min(|sent|, |q|)..] == q <==> sent <= q
  {
    if sent <= q {
      assert q == sent + q[|sent|..];
    }
  }

  /** Exactly when every outcome of the write as written conserves the stream: the stale bytes
      past the write index happen to repeat the front of the queue. */
  lemma WriteFdConservesIff(b: Buf)
    ensures (forall n: nat | n <= |WriteSpan(b)| ::
              WriteSpan(b)[..n] + Readable(Retrieve(b, n)) == Readable(b))
            <==> WriteSpan(b) <= Readable(b)
  {
    var span, q := WriteSpan(b), Readable(b);
    forall n: nat | n <= |span|
      ensures span[..n] + Readable(Retrieve(b, n)) == q <==> span[..n] <= q
    {
      RetrieveDequeues(b, n);
      SentIsPrefix(span[..n], q);
    }
    assert span[..|span|] == span;
    if span <= q {
      assert forall n: nat | n <= |span| :: span[..n] == q[..n];
    }
  }

  /** With the intended span every short write conserves the stream. */
  lemma RepairedWriteConserves(b: Buf, n: nat)
    requires n <= |Readable(b)|
    ensures Readable(b)[..n] + Readable(Retrieve(b, n)) == Readable(b)
  {
    RetrieveDequeues(b, n);
  }
}

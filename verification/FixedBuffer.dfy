/** The fixed-size log buffer (include/FixedBuffer.h): an array, the write cursor, the length. */
module FixedBuffers {
  import opened Basics

  /** `valid`: the buffer keeps at least one byte free, so an exact fit is refused. */
  predicate HasRoom(capacity: nat, length: nat, len: nat)
    requires length <= capacity
  {
    capacity - length > len
  }

  /** The contents after `append`: unchanged when the bytes do not fit. */
  function Appended(capacity: nat, contents: seq<byte>, bytes: seq<byte>): seq<byte>
    requires |contents| <= capacity
  {
    if HasRoom(capacity, |contents|, |bytes|) then contents + bytes else contents
  }

  /** An append keeps all the bytes if and only if at least one byte stays free, and otherwise
      takes none of them. */
  lemma AppendKeepsIff(capacity: nat, contents: seq<byte>, bytes: seq<byte>)
    requires |contents| <= capacity
    ensures |contents| + |bytes| < capacity ==> Appended(capacity, contents, bytes) == contents + bytes
    ensures |contents| + |bytes| >= capacity ==> Appended(capacity, contents, bytes) == contents
    ensures |Appended(capacity, contents, bytes)| <= capacity
  {
  }

  class FixedBuffer {
    const data: array<byte>
    var cur: nat
    var length: nat

    ghost predicate Valid()
      reads this
    {
      cur == length <= data.Length
    }

    ghost function Contents(): seq<byte>
      reads this, data
      requires Valid()
    {
      data[..length]
    }

    constructor (capacity: nat)
      ensures Valid() && fresh(data) && data.Length == capacity && Contents() == []
    {
      data := new byte[capacity](_ => 0);
      cur, length := 0, 0;
    }

    predicate Fits(len: nat)
      reads this
      requires Valid()
    {
      HasRoom(data.Length, length, len)
    }

    method Append(buf: seq<byte>)
      requires Valid()
      modifies this, data
      ensures Valid() && Contents() == Appended(data.Length, old(Contents()), buf)
    {
      if Fits(|buf|) {
        forall i | 0 <= i < |buf| {
          data[cur + i] := buf[i];
        }
        Add(|buf|);
      }
    }

    /** Advances past bytes already written at the cursor; the caller guarantees the room. */
    method Add(len: nat)
      requires Valid() && length + len <= data.Length
      modifies this
      ensures Valid() && length == old(length) + len
    {
      cur := cur + len;
      length := length + len;
    }

    method Reset()
      requires Valid()
      modifies this
      ensures Valid() && Contents() == []
    {
      cur, length := 0, 0;
    }
  }
}

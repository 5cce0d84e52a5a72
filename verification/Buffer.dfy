/** The buffer as the program keeps it: one array, two indices, bytes moved in place.  Every
    method is proved to compute the corresponding function of `BufferSpec`. */
module NetBuffer {
  import opened Basics
  import opened Spec = BufferSpec

  class Buffer {
    var storage: array<byte>
    var reader: nat
    var writer: nat

    ghost predicate Valid()
      reads this
    {
      CHEAP_PREPEND <= reader <= writer <= storage.Length
    }

    ghost function View(): Buf
      reads this, storage
      requires Valid()
    {
      RawBuf(storage[..], reader, writer)
    }

    constructor (initialSize: nat)
      ensures Valid() && fresh(storage)
      ensures View() == EmptyBuf(initialSize)
    {
      storage := new byte[CHEAP_PREPEND + initialSize](_ => 0);
      reader := CHEAP_PREPEND;
      writer := CHEAP_PREPEND;
      new;
      assert storage[..] == Zeros(CHEAP_PREPEND + initialSize);
    }

    method Retrieve(len: nat)
      requires Valid()
      modifies this`reader, this`writer
      ensures Valid() && View() == Spec.Retrieve(old(View()), len)
    {
      if len < writer - reader {
        reader := reader + len;
      } else {
        RetrieveAll();
      }
    }

    method RetrieveAll()
      requires Valid()
      modifies this`reader, this`writer
      ensures Valid() && reader == writer == CHEAP_PREPEND
    {
      reader := CHEAP_PREPEND;
      writer := CHEAP_PREPEND;
    }

    /** Reading `len` bytes from the front, which the source allows past the write index. */
    method RetrieveAsString(len: nat) returns (result: seq<byte>)
      requires Valid() && reader + len <= storage.Length
      modifies this`reader, this`writer
      ensures Valid() && View() == Spec.Retrieve(old(View()), len)
      ensures |result| == len
      ensures result <= old(Readable(View())) <==> len <= |old(Readable(View()))|
    {
      result := storage[reader..reader + len];
      Retrieve(len);
    }

    method RetrieveAllAsString() returns (result: seq<byte>)
      requires Valid()
      modifies this`reader, this`writer
      ensures Valid() && View() == Spec.Retrieve(old(View()), |result|)
      ensures result == old(Readable(View())) && Readable(View()) == []
    {
      result := RetrieveAsString(writer - reader);
    }

    method MakeSpace(len: nat)
      requires Valid() && storage.Length - writer < len
      modifies this, storage
      ensures Valid() && (storage == old(storage) || fresh(storage))
      ensures View() == Spec.MakeSpace(old(View()), len)
    {
      if storage.Length - writer + reader - CHEAP_PREPEND < len {
        Resize(writer + len);
      } else {
        SlideDown();
      }
    }

    /** `std::vector::resize` to a larger size: the old bytes, then zeros. */
    method Resize(size: nat)
      requires Valid() && storage.Length <= size
      modifies this`storage
      ensures Valid() && fresh(storage)
      ensures storage[..] == old(storage[..]) + Zeros(size - old(storage.Length))
    {
      var grown := new byte[size](_ => 0);
      forall i | 0 <= i < storage.Length {
        grown[i] := storage[i];
      }
      storage := grown;
    }

    /** The overlapping forward copy of the readable bytes to the prepend boundary. */
    method SlideDown()
      requires Valid() && reader > CHEAP_PREPEND
      modifies this`reader, this`writer, storage
      ensures Valid() && reader == CHEAP_PREPEND
      ensures writer == CHEAP_PREPEND + |old(Readable(View()))|
      ensures storage[..] == Overwrite(old(storage[..]), CHEAP_PREPEND, old(Readable(View())))
    {
      var readable := writer - reader;
      var from := reader;
      ghost var was := storage[..];
      var to := CHEAP_PREPEND;
      while to < CHEAP_PREPEND + readable
        invariant CHEAP_PREPEND <= to <= CHEAP_PREPEND + readable
        invariant forall k :: 0 <= k < CHEAP_PREPEND || to <= k < storage.Length ==> storage[k] == was[k]
        invariant forall k :: CHEAP_PREPEND <= k < to ==> storage[k] == was[k - CHEAP_PREPEND + from]
        modifies storage
      {
        storage[to] := storage[to - CHEAP_PREPEND + from];
        to := to + 1;
      }
      reader := CHEAP_PREPEND;
      writer := CHEAP_PREPEND + readable;
    }

    method EnsureWritableBytes(len: nat)
      requires Valid()
      modifies this, storage
      ensures Valid() && (storage == old(storage) || fresh(storage))
      ensures View() == EnsureWritable(old(View()), len)
    {
      if storage.Length - writer < len {
        MakeSpace(len);
      }
    }

    method Append(data: seq<byte>)
      requires Valid()
      modifies this, storage
      ensures Valid() && (storage == old(storage) || fresh(storage))
      ensures View() == Spec.Append(old(View()), data)
    {
      EnsureWritableBytes(|data|);
      WriteAt(writer, data);
      writer := writer + |data|;
    }

    method WriteAt(at: nat, data: seq<byte>)
      requires at + |data| <= storage.Length
      modifies storage
      ensures storage[..] == Overwrite(old(storage[..]), at, data)
    {
      forall i | 0 <= i < |data| {
        storage[at + i] := data[i];
      }
    }

    /** `readFd` as written; `stream` is what the kernel delivered. */
    method ReadFd(stream: seq<byte>)
      requires Valid() && |stream| <= ReadCapacity(View())
      modifies this, storage
      ensures Valid() && (storage == old(storage) || fresh(storage))
      ensures View() == Spec.ReadFd(old(View()), stream)
    {
      var writable := storage.Length - writer;
      WriteAt(writer, stream[..Min(|stream|, writable)]);
      if |stream| < writable {
        writer := writer + |stream|;
      } else {
        Append(stream[writable..]);
      }
    }

    /** `readFd` with `writerIndex_ = buffer_.size()` before the spill is appended. */
    method ReadFdRepaired(stream: seq<byte>)
      requires Valid() && |stream| <= ReadCapacity(View())
      modifies this, storage
      ensures Valid() && (storage == old(storage) || fresh(storage))
      ensures View() == Spec.ReadFdRepaired(old(View()), stream)
    {
      var writable := storage.Length - writer;
      WriteAt(writer, stream[..Min(|stream|, writable)]);
      if |stream| < writable {
        writer := writer + |stream|;
      } else {
        writer := storage.Length;
        Append(stream[writable..]);
      }
    }

    /** `writeFd` as written; the kernel took `n` bytes of the span it was given. */
    method WriteFd(n: nat) returns (sent: seq<byte>)
      requires Valid() && n <= storage.Length - writer
      ensures sent == WriteSpan(View())[..n]
    {
      sent := storage[writer..writer + n];
    }

    /** `writeFd` on the span `peek()`, `readableBytes()`. */
    method WriteFdRepaired(n: nat) returns (sent: seq<byte>)
      requires Valid() && n <= writer - reader
      ensures sent == Readable(View())[..n]
    {
      sent := storage[reader..reader + n];
    }
  }
}

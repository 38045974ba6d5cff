/** Buffer.h and Buffer.cc: the growable, compactable byte buffer, updated in place. */
module Buffers {
  import opened Layouts
  import opened SystemCalls

  class Buffer {
    var buffer: array<byte>
    var readerIndex: nat
    var writerIndex: nat

    ghost predicate Valid()
      reads this, buffer
    {
      && CHEAP_PREPEND <= readerIndex <= writerIndex <= buffer.Length
      && (readerIndex == writerIndex ==> readerIndex == CHEAP_PREPEND)
    }

    ghost function View(): (b: Layout)
      requires Valid()
      reads this, buffer
      ensures b.Valid()
    {
      Layout(buffer[readerIndex..writerIndex], readerIndex, buffer.Length)
    }

    constructor (initialSize: nat)
      ensures Valid() && fresh(buffer)
      ensures View() == Fresh(initialSize)
    {
      buffer := new byte[CHEAP_PREPEND + initialSize](_ => 0);
      readerIndex, writerIndex := CHEAP_PREPEND, CHEAP_PREPEND;
    }

    function ReadableBytes(): (n: nat)
      requires Valid()
      reads this, buffer
      ensures n == |View().contents|
    {
      writerIndex - readerIndex
    }

    function WritableBytes(): (n: nat)
      requires Valid()
      reads this, buffer
      ensures n == View().Writable()
    {
      buffer.Length - writerIndex
    }

    method RetrieveAll()
      requires Valid()
      modifies this`readerIndex, this`writerIndex
      ensures Valid() && View() == Layouts.RetrieveAll(old(View()))
    {
      readerIndex := CHEAP_PREPEND;
      writerIndex := CHEAP_PREPEND;
    }

    method Retrieve(len: nat)
      requires Valid()
      modifies this`readerIndex, this`writerIndex
      ensures Valid() && View() == Layouts.Retrieve(old(View()), len)
    {
      if len < ReadableBytes() {
        readerIndex := readerIndex + len;
      } else {
        RetrieveAll();
      }
    }

    /** The string constructor copies `len` bytes from the reader index on; they must lie inside the
        vector, and only the first ReadableBytes() of them are stream bytes. */
    method RetrieveAsString(len: nat) returns (result: seq<byte>)
      requires Valid()
      requires readerIndex + len <= buffer.Length
      modifies this`readerIndex, this`writerIndex
      ensures Valid() && View() == Layouts.Retrieve(old(View()), len)
      ensures |result| == len
      ensures len <= |old(View()).contents| ==>
        result + View().contents == old(View()).contents && result == old(View()).contents[..len]
      ensures len > |old(View()).contents| ==> old(View()).contents < result && View().contents == []
    {
      result := buffer[readerIndex..readerIndex + len];
      Retrieve(len);
    }

    method RetrieveAllAsString() returns (result: seq<byte>)
      requires Valid()
      modifies this`readerIndex, this`writerIndex
      ensures Valid() && View() == Layouts.RetrieveAll(old(View()))
      ensures result == old(View()).contents
    {
      result := RetrieveAsString(ReadableBytes());
    }

    /** The overlapping forward copy of makeSpace: the readable bytes move down to the header. */
    method MoveToFront()
      requires Valid() && readerIndex > CHEAP_PREPEND
      modifies this`readerIndex, this`writerIndex, buffer
      ensures Valid() && View() == old(View()).(reader := CHEAP_PREPEND)
    {
      var readable, shift := ReadableBytes(), readerIndex - CHEAP_PREPEND;
      ghost var before := buffer[..];
      var k := CHEAP_PREPEND;
      while k < CHEAP_PREPEND + readable
        invariant CHEAP_PREPEND <= k <= CHEAP_PREPEND + readable
        invariant forall j :: CHEAP_PREPEND <= j < k ==> buffer[j] == before[j + shift]
        invariant forall j :: k <= j < buffer.Length ==> buffer[j] == before[j]
        modifies buffer
      {
        buffer[k] := buffer[k + shift];
        k := k + 1;
      }
      assert buffer[CHEAP_PREPEND..CHEAP_PREPEND + readable] == before[readerIndex..writerIndex];
      readerIndex := CHEAP_PREPEND;
      writerIndex := readerIndex + readable;
    }

    /** std::vector::resize to a larger size: old elements kept, new ones zero. */
    method Resize(size: nat)
      requires Valid() && size >= buffer.Length
      modifies this`buffer
      ensures fresh(buffer) && buffer.Length == size
      ensures buffer[..old(buffer.Length)] == old(buffer[..])
    {
      var grown := new byte[size](_ => 0);
      var i := 0;
      while i < buffer.Length
        invariant 0 <= i <= buffer.Length
        invariant grown[..i] == buffer[..i]
        modifies grown
      {
        grown[i] := buffer[i];
        i := i + 1;
      }
      buffer := grown;
    }

    method MakeSpace(len: nat)
      requires Valid() && WritableBytes() < len
      modifies this, buffer
      ensures Valid() && View() == EnsureWritable(old(View()), len)
      ensures buffer == old(buffer) || fresh(buffer)
    {
      if WritableBytes() + readerIndex < len + CHEAP_PREPEND {
        Resize(writerIndex + len);
        assert buffer[readerIndex..writerIndex] == buffer[..old(buffer.Length)][readerIndex..writerIndex];
      } else {
        MoveToFront();
      }
    }

    method EnsureWritableBytes(len: nat)
      requires Valid()
      modifies this, buffer
      ensures Valid() && View() == EnsureWritable(old(View()), len)
      ensures WritableBytes() >= len
      ensures buffer == old(buffer) || fresh(buffer)
    {
      RoomIsMadeOnceAndFits(View(), len);
      if WritableBytes() < len {
        MakeSpace(len);
      }
    }

    /** std::copy of `data` to the write position, then the index moves. */
    method CopyIn(data: seq<byte>)
      requires Valid() && |data| <= WritableBytes()
      modifies this`writerIndex, buffer
      ensures Valid() && View() == old(View()).(contents := old(View()).contents + data)
    {
      ghost var before := buffer[..];
      var i := 0;
      while i < |data|
        invariant 0 <= i <= |data|
        invariant buffer[..writerIndex] == before[..writerIndex]
        invariant buffer[writerIndex..writerIndex + i] == data[..i]
        modifies buffer
      {
        buffer[writerIndex + i] := data[i];
        i := i + 1;
      }
      assert buffer[readerIndex..writerIndex] == buffer[..writerIndex][readerIndex..];
      assert before[readerIndex..writerIndex] == before[..writerIndex][readerIndex..];
      assert buffer[readerIndex..writerIndex + |data|]
          == buffer[readerIndex..writerIndex] + buffer[writerIndex..writerIndex + |data|];
      writerIndex := writerIndex + |data|;
    }

    method Append(data: seq<byte>)
      requires Valid()
      modifies this, buffer
      ensures Valid() && View() == Layouts.Append(old(View()), data)
      ensures buffer == old(buffer) || fresh(buffer)
    {
      EnsureWritableBytes(|data|);
      CopyIn(data);
    }

    /** readv into the free tail and a 64K spill on the stack. `outcome` is the kernel's answer: it
        fills the first iovec before the second one. */
    method ReadFd(outcome: ReadOutcome) returns (n: int)
      requires Valid()
      requires outcome.ReadBytes? ==> |outcome.bytes| <= View().ReadCapacity()
      modifies this, buffer
      ensures Valid() && (buffer == old(buffer) || fresh(buffer))
      ensures outcome.ReadFailed? ==> n == -1 && View() == old(View())
      ensures outcome.ReadBytes? ==>
        n == |outcome.bytes| && View() == Layouts.ReadFd(old(View()), outcome.bytes)
    {
      if outcome.ReadFailed? {
        return -1;
      }
      var bytes := outcome.bytes;
      n := |bytes|;
      var writable := WritableBytes();
      if n < writable {
        CopyIn(bytes);
      } else {
        CopyIn(bytes[..writable]);
        var extrabuf := bytes[writable..];
        assert |extrabuf| <= EXTRA_SIZE;
        Append(extrabuf);
      }
    }

    /** write of the whole readable region; the bytes stay until the caller retrieves them. */
    method WriteFd(outcome: WriteOutcome) returns (n: int, sent: seq<byte>)
      requires Valid() && Allows(outcome, ReadableBytes())
      ensures outcome.WriteFailed? ==> n == -1 && sent == []
      ensures outcome.Wrote? ==> n == outcome.count && sent == View().contents[..n]
    {
      if outcome.WriteFailed? {
        return -1, [];
      }
      return outcome.count, buffer[readerIndex..readerIndex + outcome.count];
    }
  }
}

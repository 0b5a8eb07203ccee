/** The byte buffer of net/Buffer.h and net/Buffer.cpp: a vector with room to prepend, whose
    readable part slides, is moved back, or is copied into a larger vector. */
module Buffers {
  newtype byte = x: int | 0 <= x < 256

  const CHEAP_PREPEND: nat := 8
  const INITIAL_SIZE: nat := 1024
  const EXTRA_BUF: nat := 65536

  /** The sizes of a buffer, without its bytes. */
  datatype Shape = Shape(size: nat, reader: nat, writer: nat) {
    predicate Ok() { reader <= writer <= size }
    function Readable(): int { writer - reader }
    function Writable(): int { size - writer }
    function Prependable(): nat { reader }

    /** What `ensureWritableBytes(len)` leaves. */
    function Ensured(len: nat): Shape
      requires Ok()
    {
      if Writable() >= len then this
      else if Writable() + Prependable() < len + CHEAP_PREPEND then Shape(writer + len, reader, writer)
      else Shape(size, CHEAP_PREPEND, CHEAP_PREPEND + (writer - reader))
    }

    function Retrieved(len: nat): Shape
      requires Ok() && len <= Readable()
    {
      if len < Readable() then Shape(size, reader + len, writer) else Shape(size, CHEAP_PREPEND, CHEAP_PREPEND)
    }
  }

  /** Making room keeps the readable length, gives the room asked for, and never shrinks. The vector grows
      only when the room in front beyond the 8 bytes kept for prepending does not suffice, and then by what
      is missing; otherwise the bytes move towards the front, as the assertion in `makeSpace` demands, and
      exactly 8 bytes stay free before them. */
  lemma EnsuredGivesRoom(s: Shape, len: nat)
    requires s.Ok()
    ensures s.Ensured(len).Ok() && s.Ensured(len).Readable() == s.Readable()
    ensures s.Ensured(len).Writable() >= len && s.Ensured(len).size >= s.size
    ensures s.Writable() < len && s.Writable() + s.Prependable() >= len + CHEAP_PREPEND ==> CHEAP_PREPEND < s.reader
    ensures s.Ensured(len) == s <==> s.Writable() >= len
    ensures s.Ensured(len).size > s.size <==> s.Writable() < len && s.Writable() + s.Prependable() < len + CHEAP_PREPEND
    ensures s.Ensured(len).size > s.size ==> s.Ensured(len).Writable() == len && s.Ensured(len).reader == s.reader
    ensures s.Ensured(len).size == s.size && s.Writable() < len ==> s.Ensured(len).reader == CHEAP_PREPEND < s.reader
  {
  }

  class Buffer {
    var storage: seq<byte>
    var readerIndex: nat
    var writerIndex: nat

    ghost predicate Valid()
      reads this
    {
      Sizes().Ok() && CHEAP_PREPEND <= |storage|
    }

    function Sizes(): Shape
      reads this
    {
      Shape(|storage|, readerIndex, writerIndex)
    }

    /** The byte sequence the buffer stands for. */
    function Contents(): (s: seq<byte>)
      requires Valid()
      reads this
      ensures |s| == Sizes().Readable()
    {
      storage[readerIndex..writerIndex]
    }

    constructor (initialSize: nat)
      ensures Valid() && Contents() == [] && Sizes() == Shape(CHEAP_PREPEND + initialSize, CHEAP_PREPEND, CHEAP_PREPEND)
    {
      storage := seq(CHEAP_PREPEND + initialSize, _ => 0);
      readerIndex, writerIndex := CHEAP_PREPEND, CHEAP_PREPEND;
    }

    /** Lines 30-34; exchanging a buffer with itself does nothing. */
    method Swap(rhs: Buffer)
      requires Valid() && rhs.Valid()
      modifies this, rhs
      ensures Valid() && rhs.Valid()
      ensures Contents() == old(rhs.Contents()) && rhs.Contents() == old(Contents())
      ensures Sizes() == old(rhs.Sizes()) && rhs.Sizes() == old(Sizes())
    {
      storage, rhs.storage := rhs.storage, storage;
      readerIndex, rhs.readerIndex := rhs.readerIndex, readerIndex;
      writerIndex, rhs.writerIndex := rhs.writerIndex, writerIndex;
    }

    /** Lines 87-90. */
    method RetrieveAll()
      requires Valid()
      modifies this`readerIndex, this`writerIndex
      ensures Valid() && Contents() == [] && readerIndex == CHEAP_PREPEND == writerIndex
    {
      readerIndex, writerIndex := CHEAP_PREPEND, CHEAP_PREPEND;
    }

    /** Lines 66-74. */
    method Retrieve(len: nat)
      requires Valid() && len <= Sizes().Readable()
      modifies this`readerIndex, this`writerIndex
      ensures Valid() && Contents() == old(Contents())[len..]
      ensures Sizes() == old(Sizes()).Retrieved(len)
    {
      if len < writerIndex - readerIndex {
        readerIndex := readerIndex + len;
      } else {
        RetrieveAll();
      }
    }

    /** Lines 96-101. */
    method RetrieveAsString(len: nat) returns (result: seq<byte>)
      requires Valid() && len <= Sizes().Readable()
      modifies this`readerIndex, this`writerIndex
      ensures Valid() && result + Contents() == old(Contents()) && |result| == len
      ensures Sizes() == old(Sizes()).Retrieved(len)
    {
      result := storage[readerIndex..readerIndex + len];
      assert Contents() == result + Contents()[len..];
      Retrieve(len);
    }

    /** `std::copy` into the vector. */
    method CopyTo(data: seq<byte>, at: nat)
      requires at + |data| <= |storage|
      modifies this`storage
      ensures |storage| == old(|storage|) && storage[at..at + |data|] == data
      ensures forall k :: 0 <= k < |storage| && !(at <= k < at + |data|) ==> storage[k] == old(storage[k])
    {
      storage := storage[..at] + data + storage[at + |data|..];
    }

    /** Lines 173-187. */
    method MakeSpace(len: nat)
      requires Valid() && Sizes().Writable() < len
      modifies this
      ensures Valid() && Contents() == old(Contents()) && Sizes() == old(Sizes()).Ensured(len)
    {
      if |storage| - writerIndex + readerIndex < len + CHEAP_PREPEND {
        storage := storage + seq(writerIndex + len - |storage|, _ => 0);
      } else {
        assert CHEAP_PREPEND < readerIndex;
        var readable := writerIndex - readerIndex;
        CopyTo(storage[readerIndex..writerIndex], CHEAP_PREPEND);
        readerIndex := CHEAP_PREPEND;
        writerIndex := readerIndex + readable;
      }
    }

    /** Lines 117-122. */
    method EnsureWritableBytes(len: nat)
      requires Valid()
      modifies this
      ensures Valid() && Contents() == old(Contents()) && Sizes() == old(Sizes()).Ensured(len)
      ensures Sizes().Writable() >= len
    {
      EnsuredGivesRoom(Sizes(), len);
      if |storage| - writerIndex < len {
        MakeSpace(len);
      }
    }

    /** Lines 103-107. */
    method Append(data: seq<byte>)
      requires Valid()
      modifies this
      ensures Valid() && Contents() == old(Contents()) + data
      ensures var s := old(Sizes()).Ensured(|data|);
              Sizes() == Shape(s.size, s.reader, s.writer + |data|)
    {
      EnsureWritableBytes(|data|);
      CopyTo(data, writerIndex);
      writerIndex := writerIndex + |data|;
      assert storage[readerIndex..writerIndex] == storage[readerIndex..writerIndex - |data|] + data;
    }

    /** Lines 132-135. */
    method Unwrite(len: nat)
      requires Valid() && len <= Sizes().Readable()
      modifies this`writerIndex
      ensures Valid() && Contents() == old(Contents())[..|old(Contents())| - len]
      ensures Sizes() == old(Sizes()).(writer := writerIndex)
    {
      writerIndex := writerIndex - len;
    }

    /** Lines 137-142. */
    method Prepend(data: seq<byte>)
      requires Valid() && |data| <= Sizes().Prependable()
      modifies this`readerIndex, this`storage
      ensures Valid() && Contents() == data + old(Contents())
      ensures Sizes() == old(Sizes()).(reader := old(readerIndex) - |data|)
    {
      readerIndex := readerIndex - |data|;
      CopyTo(data, readerIndex);
      assert storage[readerIndex..writerIndex] == data + storage[readerIndex + |data|..writerIndex];
    }

    /** Lines 158-163. */
    method Shrink(reserve: nat)
      requires Valid()
      modifies this
      ensures Valid() && Contents() == old(Contents()) && readerIndex == CHEAP_PREPEND
      ensures |storage| == CHEAP_PREPEND + if INITIAL_SIZE < |Contents()| + reserve then |Contents()| + reserve else INITIAL_SIZE
    {
      var other := new Buffer(INITIAL_SIZE);
      other.EnsureWritableBytes(writerIndex - readerIndex + reserve);
      other.Append(storage[readerIndex..writerIndex]);
      Swap(other);
    }

    /** net/Buffer.cpp lines 13-19: how much one `readv` may deliver. */
    function ReadRoom(): nat
      requires Valid()
      reads this
    {
      if Sizes().Writable() < EXTRA_BUF then Sizes().Writable() + EXTRA_BUF else Sizes().Writable()
    }

    /** net/Buffer.cpp lines 10-32: `readv` scatters what it received over the writable tail and the
        array on the stack; None stands for its failure. */
    method ReadFd(received: Received) returns (n: int)
      requires Valid() && (received.Data? ==> |received.bytes| <= ReadRoom())
      modifies this
      ensures Valid()
      ensures received.Error? ==> n == -1 && Contents() == old(Contents()) && Sizes() == old(Sizes())
      ensures received.Data? ==> n == |received.bytes| && Contents() == old(Contents()) + received.bytes
      ensures received.Data? ==> Sizes() == AfterRead(old(Sizes()), |received.bytes|)
    {
      var writable := |storage| - writerIndex;
      if received.Error? {
        n := -1;
        return;
      }
      n := |received.bytes|;
      if n <= writable {
        CopyTo(received.bytes, writerIndex);
        writerIndex := writerIndex + n;
        assert storage[readerIndex..writerIndex] == storage[readerIndex..writerIndex - n] + received.bytes;
      } else {
        Spill(received.bytes);
      }
    }

    /** net/Buffer.cpp lines 27-30: the tail is full, and the rest comes from the array on the stack. */
    method Spill(bytes: seq<byte>)
      requires Valid() && |bytes| > Sizes().Writable()
      modifies this
      ensures Valid() && Contents() == old(Contents()) + bytes && Sizes() == AfterRead(old(Sizes()), |bytes|)
    {
      var writable := |storage| - writerIndex;
      FillTail(bytes[..writable]);
      Append(bytes[writable..]);
      assert bytes == bytes[..writable] + bytes[writable..];
      assert Contents() == old(Contents()) + (bytes[..writable] + bytes[writable..]);
    }

    method FillTail(bytes: seq<byte>)
      requires Valid() && |bytes| == Sizes().Writable()
      modifies this`storage, this`writerIndex
      ensures Valid() && Contents() == old(Contents()) + bytes && Sizes() == old(Sizes()).(writer := |storage|)
    {
      CopyTo(bytes, writerIndex);
      writerIndex := |storage|;
    }
  }

  datatype Received = Data(bytes: seq<byte>) | Error

  function AfterRead(s: Shape, n: nat): Shape
    requires s.Ok()
  {
    if n <= s.Writable() then Shape(s.size, s.reader, s.writer + n)
    else
      var extra := n - s.Writable();
      var t := Shape(s.size, s.reader, s.size).Ensured(extra);
      Shape(t.size, t.reader, t.writer + extra)
  }

  // ---------------------------------------------------------------- storage over runs

  datatype Op = Append(len: nat) | Retrieve(len: nat) | Prepend(len: nat) | Unwrite(len: nat) | ReadFd(len: nat)

  /** The effect of an operation on the sizes, as the methods of Buffer promise it. */
  function After(s: Shape, op: Op): Shape
    requires s.Ok() && Allowed(s, op)
  {
    match op
    case Append(len) => var t := s.Ensured(len); Shape(t.size, t.reader, t.writer + len)
    case Retrieve(len) => s.Retrieved(len)
    case Prepend(len) => Shape(s.size, s.reader - len, s.writer)
    case Unwrite(len) => Shape(s.size, s.reader, s.writer - len)
    case ReadFd(len) => AfterRead(s, len)
  }

  predicate Allowed(s: Shape, op: Op) {
    CHEAP_PREPEND <= s.size &&
    match op
    case Append(_) => true
    case ReadFd(_) => true
    case Retrieve(len) => len <= s.Readable()
    case Unwrite(len) => len <= s.Readable()
    case Prepend(len) => len <= s.Prependable()
  }

  ghost predicate IsRun(ss: seq<Shape>, ops: seq<Op>) {
    && |ss| == |ops| + 1 && (forall i :: 0 <= i < |ss| ==> ss[i].Ok())
    && forall i :: 0 <= i < |ops| ==> Allowed(ss[i], ops[i]) && ss[i + 1] == After(ss[i], ops[i])
  }

  /** Growing happens only when the bytes kept and the bytes added fill all but the reserve. */
  lemma GrowthIsBounded(s: Shape, op: Op, peak: nat, largest: nat)
    requires s.Ok() && Allowed(s, op) && (op.Append? || op.ReadFd? ==> op.len <= largest)
    requires After(s, op).Readable() <= peak
    ensures After(s, op).size <= s.size || After(s, op).size < peak + largest + CHEAP_PREPEND
  {
  }

  /** However long the run, the storage never exceeds what it started with, or the peak content plus
      the largest append plus 8. */
  lemma {:induction false} StorageBounded(ss: seq<Shape>, ops: seq<Op>, n: nat, initialSize: nat, peak: nat, largest: nat)
    requires IsRun(ss, ops) && n <= |ops| && ss[0] == Shape(CHEAP_PREPEND + initialSize, CHEAP_PREPEND, CHEAP_PREPEND)
    requires forall i :: 0 <= i < |ss| ==> ss[i].Readable() <= peak
    requires forall i :: 0 <= i < |ops| && (ops[i].Append? || ops[i].ReadFd?) ==> ops[i].len <= largest
    ensures ss[n].size <= initialSize + CHEAP_PREPEND || ss[n].size < peak + largest + CHEAP_PREPEND
  {
    if n > 0 {
      StorageBounded(ss, ops, n - 1, initialSize, peak, largest);
      assert ss[(n - 1) + 1] == After(ss[n - 1], ops[n - 1]);
      GrowthIsBounded(ss[n - 1], ops[n - 1], peak, largest);
    }
  }

  /** The 8 bytes in front are there whenever nobody has used them: in a run without `prepend` they are
      free in every state. */
  lemma {:induction false} RoomToPrepend(ss: seq<Shape>, ops: seq<Op>, n: nat)
    requires IsRun(ss, ops) && n <= |ops| && ss[0].reader >= CHEAP_PREPEND
    requires forall i :: 0 <= i < n ==> !ops[i].Prepend?
    ensures ss[n].Prependable() >= CHEAP_PREPEND
  {
    if n > 0 {
      RoomToPrepend(ss, ops, n - 1);
      assert ss[(n - 1) + 1] == After(ss[n - 1], ops[n - 1]);
    }
  }
}

/** Buffer.h and Buffer.cc: a growable array with a prependable, a readable and a writable zone.

    The class is proved against two views: `Contents()`, the plain byte sequence it stands for, and
    `Shape()`, the three numbers that decide when it compacts and when it grows. */
module Buffers {
  import opened Kernel

  const CHEAP_PREPEND: nat := 8
  const INITIAL_SIZE: nat := 1024
  const EXTRA_SIZE: nat := 65536

  /** The backing array's size and the two indices. */
  datatype Layout = Layout(size: nat, reader: nat, writer: nat) {
    predicate Valid() {
      CHEAP_PREPEND <= reader <= writer <= size
    }

    function Readable(): int { writer - reader }

    function Writable(): int { size - writer }

    /** `retrieve` and `retrieveAll`: taking everything rewinds both indices. */
    function Retrieved(len: nat): Layout
      requires Valid()
    {
      if len < Readable() then Layout(size, reader + len, writer)
      else Layout(size, CHEAP_PREPEND, CHEAP_PREPEND)
    }

    /** `makeSpace`: grow when the two free zones together are too small, compact otherwise. */
    function Spaced(len: nat): Layout
      requires Valid()
    {
      if Writable() + reader < len + CHEAP_PREPEND then Layout(writer + len, reader, writer)
      else Layout(size, CHEAP_PREPEND, CHEAP_PREPEND + Readable())
    }

    function Ensured(len: nat): Layout
      requires Valid()
    {
      if Writable() < len then Spaced(len) else this
    }

    function Appended(len: nat): Layout
      requires Valid()
    {
      var l := Ensured(len);
      Layout(l.size, l.reader, l.writer + len)
    }

    /** The most `readv` can deliver: the overflow area is offered only below its own size. */
    function ReadLimit(): int {
      if Writable() < EXTRA_SIZE then Writable() + EXTRA_SIZE else Writable()
    }

    /** `readFd` after the kernel delivered `n` bytes. */
    function Received(n: nat): Layout
      requires Valid()
    {
      if n <= Writable() then Layout(size, reader, writer + n)
      else Layout(size, reader, size).Appended(n - Writable())
    }
  }

  class Buffer {
    var buffer: array<Byte>
    var readerIndex: nat
    var writerIndex: nat
    /** The layout it was built with, and every operation since. */
    ghost const initial: Layout
    ghost var history: seq<Op>

    ghost predicate InBounds()
      reads this
    {
      CHEAP_PREPEND <= readerIndex <= writerIndex <= buffer.Length
    }

    ghost predicate Valid()
      reads this
    {
      InBounds() && initial.Valid() && Shape() == Run(initial, history)
    }

    /** The bytes from `peek()` on. */
    function Contents(): Bytes
      reads this, buffer
      requires InBounds()
    {
      buffer[readerIndex..writerIndex]
    }

    ghost function Shape(): Layout
      reads this
    {
      Layout(buffer.Length, readerIndex, writerIndex)
    }

    constructor (initialSize: nat := INITIAL_SIZE)
      ensures Valid() && fresh(buffer)
      ensures Contents() == []
      ensures Shape() == initial == Layout(CHEAP_PREPEND + initialSize, CHEAP_PREPEND, CHEAP_PREPEND)
      ensures history == []
    {
      buffer := new Byte[CHEAP_PREPEND + initialSize](_ => 0);
      readerIndex := CHEAP_PREPEND;
      writerIndex := CHEAP_PREPEND;
      initial := Layout(CHEAP_PREPEND + initialSize, CHEAP_PREPEND, CHEAP_PREPEND);
      history := [];
    }

    /** Notes an operation that has just been carried out. */
    ghost method Record(op: Op)
      requires InBounds() && initial.Valid() && Shape() == Apply(Run(initial, history), op)
      modifies `history
      ensures Valid() && history == old(history) + [op]
    {
      RunSnoc(initial, history, op);
      history := history + [op];
    }

    function ReadableBytes(): (n: nat)
      reads this, buffer
      requires InBounds()
      ensures n == |Contents()|
    {
      writerIndex - readerIndex
    }

    function WritableBytes(): nat
      reads this
      requires InBounds()
    {
      buffer.Length - writerIndex
    }

    /** Taking more than is readable takes everything. */
    method Retrieve(len: nat)
      requires Valid()
      modifies `readerIndex, `writerIndex, `history
      ensures Valid() && history == old(history) + [Op.Retrieve(len)]
      ensures Contents() == old(Contents())[Min(len, |old(Contents())|)..]
      ensures Shape() == old(Shape()).Retrieved(len)
    {
      if len < ReadableBytes() {
        readerIndex := readerIndex + len;
      } else {
        Rewind();
      }
      Record(Op.Retrieve(len));
    }

    method RetrieveAll()
      requires Valid()
      modifies `readerIndex, `writerIndex, `history
      ensures Valid() && Contents() == []
      ensures readerIndex == writerIndex == CHEAP_PREPEND
    {
      ghost var len := ReadableBytes();
      Rewind();
      Record(Op.Retrieve(len));
    }

    method Rewind()
      modifies `readerIndex, `writerIndex
      ensures readerIndex == writerIndex == CHEAP_PREPEND
    {
      readerIndex := CHEAP_PREPEND;
      writerIndex := CHEAP_PREPEND;
    }

    /** The string constructor reads `len` bytes from `peek()`, so the caller must stay inside. */
    method RetrieveAsString(len: nat) returns (result: Bytes)
      requires Valid()
      requires len <= |Contents()|
      modifies `readerIndex, `writerIndex, `history
      ensures Valid()
      ensures old(Contents()) == result + Contents() && |result| == len
      ensures Shape() == old(Shape()).Retrieved(len)
    {
      result := Contents()[..len];
      Retrieve(len);
    }

    method Append(data: Bytes)
      requires Valid()
      modifies this, buffer
      ensures Valid() && (buffer == old(buffer) || fresh(buffer))
      ensures history == old(history) + [Op.Append(|data|)]
      ensures Contents() == old(Contents()) + data
      ensures Shape() == old(Shape()).Appended(|data|)
    {
      PutIn(data);
      Record(Op.Append(|data|));
    }

    /** The three steps of `append`. */
    method PutIn(data: Bytes)
      requires InBounds()
      modifies `readerIndex, `writerIndex, `buffer, buffer
      ensures InBounds() && (buffer == old(buffer) || fresh(buffer))
      ensures Contents() == old(Contents()) + data
      ensures Shape() == old(Shape()).Appended(|data|)
    {
      EnsureWritableBytes(|data|);
      CopyIn(data);
      HasWritten(|data|);
    }

    /** Copies `data` to `beginWrite()` without touching the indices. */
    method CopyIn(data: Bytes)
      requires InBounds() && |data| <= WritableBytes()
      modifies buffer
      ensures buffer[..writerIndex] == old(buffer[..writerIndex])
      ensures buffer[writerIndex..writerIndex + |data|] == data
      ensures buffer[readerIndex..writerIndex + |data|] == old(Contents()) + data
    {
      for i := 0 to |data|
        invariant forall k :: 0 <= k < writerIndex ==> buffer[k] == old(buffer[k])
        invariant forall k :: 0 <= k < i ==> buffer[writerIndex + k] == data[k]
      {
        buffer[writerIndex + i] := data[i];
      }
    }

    method EnsureWritableBytes(len: nat)
      requires InBounds()
      modifies `readerIndex, `writerIndex, `buffer, buffer
      ensures InBounds() && (buffer == old(buffer) || fresh(buffer))
      ensures WritableBytes() >= len
      ensures Contents() == old(Contents())
      ensures Shape() == old(Shape()).Ensured(len)
    {
      if WritableBytes() < len {
        MakeSpace(len);
      }
    }

    method HasWritten(len: nat)
      requires InBounds() && len <= WritableBytes()
      modifies `writerIndex
      ensures InBounds() && writerIndex == old(writerIndex) + len
    {
      writerIndex := writerIndex + len;
    }

    /** Grows the array, or moves the readable bytes down over themselves. */
    method MakeSpace(len: nat)
      requires InBounds()
      requires WritableBytes() < len
      modifies `readerIndex, `writerIndex, `buffer, buffer
      ensures InBounds() && (buffer == old(buffer) || fresh(buffer))
      ensures WritableBytes() >= len
      ensures Contents() == old(Contents())
      ensures Shape() == old(Shape()).Spaced(len)
    {
      if WritableBytes() + readerIndex < len + CHEAP_PREPEND {
        Grow(writerIndex + len);
      } else {
        Compact();
      }
    }

    /** `buffer_.resize(size)`. */
    method Grow(size: nat)
      requires InBounds() && size >= buffer.Length
      modifies `buffer
      ensures InBounds() && fresh(buffer) && buffer.Length == size
      ensures Contents() == old(Contents())
    {
      var resized := new Byte[size](_ => 0);
      forall i | 0 <= i < buffer.Length {
        resized[i] := buffer[i];
      }
      buffer := resized;
    }

    /** The forward copy needs its destination before its source. */
    method Compact()
      requires InBounds() && CHEAP_PREPEND < readerIndex
      modifies `readerIndex, `writerIndex, buffer
      ensures InBounds() && readerIndex == CHEAP_PREPEND && Contents() == old(Contents())
    {
      var readable := ReadableBytes();
      ghost var content := Contents();
      for i := 0 to readable
        modifies buffer
        invariant forall k :: 0 <= k < i ==> buffer[CHEAP_PREPEND + k] == content[k]
        invariant forall k :: i <= k < readable ==> buffer[readerIndex + k] == content[k]
      {
        buffer[CHEAP_PREPEND + i] := buffer[readerIndex + i];
      }
      readerIndex := CHEAP_PREPEND;
      writerIndex := readerIndex + readable;
    }

    /** A scatter read into the writable zone and a 64 KiB overflow area. `n` is -1 on an error, and 0
        only at the end of the stream: there is always room for 64 KiB of what has arrived. */
    method ReadFd(arrival: Arrival) returns (n: int)
      requires Valid()
      modifies this, buffer
      ensures Valid() && (buffer == old(buffer) || fresh(buffer))
      ensures arrival.Data? ==>
                && n == Min(|arrival.bytes|, old(Shape()).ReadLimit())
                && Contents() == old(Contents()) + arrival.bytes[..n]
                && Shape() == old(Shape()).Received(n) && history == old(history) + [Op.ReadFd(n)]
      ensures arrival.Data? && arrival.bytes != [] ==> n > 0
      ensures arrival.Data? && |arrival.bytes| <= 65536 ==> n == |arrival.bytes|
      ensures arrival.Data? && |arrival.bytes| > 65536 ==> n >= 65536
      ensures !arrival.Data? ==>
                && n == (if arrival.EndOfStream? then 0 else -1) && history == old(history)
                && Contents() == old(Contents()) && Shape() == old(Shape())
    {
      match arrival
      case Data(bytes) =>
        n := Scatter(bytes);
        Record(Op.ReadFd(n));
      case EndOfStream => n := 0;
      case ReadError => n := -1;
    }

    /** `readv` fills the writable zone first, then the overflow area, which is appended. */
    method Scatter(bytes: Bytes) returns (n: nat)
      requires InBounds()
      modifies `readerIndex, `writerIndex, `buffer, buffer
      ensures InBounds() && (buffer == old(buffer) || fresh(buffer))
      ensures n == Min(|bytes|, old(Shape()).ReadLimit()) && n >= Min(|bytes|, 65536)
      ensures Contents() == old(Contents()) + bytes[..n]
      ensures Shape() == old(Shape()).Received(n)
    {
      var writeable := WritableBytes();
      var limit := if writeable < EXTRA_SIZE then writeable + EXTRA_SIZE else writeable;
      n := Min(|bytes|, limit);
      if n <= writeable {
        CopyIn(bytes[..n]);
        writerIndex := writerIndex + n;
      } else {
        Overflow(bytes[..writeable], bytes[writeable..n]);
        assert bytes[..writeable] + bytes[writeable..n] == bytes[..n];
      }
    }

    /** A read that fills the array and goes on in the overflow area. */
    method Overflow(direct: Bytes, extrabuf: Bytes)
      requires InBounds() && |direct| == WritableBytes()
      modifies `readerIndex, `writerIndex, `buffer, buffer
      ensures InBounds() && (buffer == old(buffer) || fresh(buffer))
      ensures Contents() == old(Contents()) + (direct + extrabuf)
      ensures Shape() == Layout(old(buffer.Length), old(readerIndex), old(buffer.Length)).Appended(|extrabuf|)
    {
      CopyIn(direct);
      writerIndex := buffer.Length;
      PutIn(extrabuf);
    }

    /** Writes from the front of the readable bytes and drops what the kernel took. */
    method WriteFd(shut: bool, w: WriteChoice) returns (r: WriteResult)
      requires Valid()
      modifies `readerIndex, `writerIndex, `history
      ensures Valid()
      ensures r == Write(shut, |old(Contents())|, w)
      ensures Contents() == if r.Wrote? then old(Contents())[r.n..] else old(Contents())
      ensures Shape() == if r.Wrote? && r.n > 0 then old(Shape()).Retrieved(r.n) else old(Shape())
      ensures history == if r.Wrote? && r.n > 0 then old(history) + [Op.Retrieve(r.n)] else old(history)
    {
      r := Write(shut, ReadableBytes(), w);
      if r.Wrote? && r.n > 0 {
        Retrieve(r.n);
      }
    }

    /** Whatever has been done with a buffer, its array has not outgrown the bound over its history. */
    lemma StaysWithin(peak: nat, longest: nat)
      requires Valid() && Bounded(initial, history, peak, longest)
      ensures buffer.Length <= initial.size || buffer.Length <= peak + longest + CHEAP_PREPEND - 1
    {
      CapacityBound(initial, history, peak, longest);
    }
  }

  // ---------------------------------------------------------------- capacity over whole runs

  datatype Op = Append(len: nat) | Retrieve(len: nat) | ReadFd(n: nat)

  function Apply(l: Layout, op: Op): Layout
    requires l.Valid()
  {
    match op
    case Append(len) => l.Appended(len)
    case Retrieve(len) => l.Retrieved(len)
    case ReadFd(n) => l.Received(n)
  }

  /** Every operation keeps the index order that the class comment of Buffer.h draws. */
  lemma ApplyValid(l: Layout, op: Op)
    requires l.Valid()
    ensures Apply(l, op).Valid()
  {
  }

  function Run(l: Layout, ops: seq<Op>): (r: Layout)
    requires l.Valid()
    ensures r.Valid()
    decreases |ops|
  {
    if ops == [] then l else
      ApplyValid(l, ops[0]);
      Run(Apply(l, ops[0]), ops[1..])
  }

  lemma {:induction false} RunSnoc(l: Layout, ops: seq<Op>, op: Op)
    requires l.Valid()
    ensures Run(l, ops + [op]) == Apply(Run(l, ops), op)
    decreases |ops|
  {
    if ops == [] {
      assert [] + [op] == [op] && [op][1..] == [];
    } else {
      assert (ops + [op])[1..] == ops[1..] + [op];
      ApplyValid(l, ops[0]);
      RunSnoc(Apply(l, ops[0]), ops[1..], op);
    }
  }

  /** The bytes an operation passes to `append`; a scatter read appends only its overflow. */
  function AppendLength(l: Layout, op: Op): int {
    match op
    case Append(len) => len
    case Retrieve(_) => 0
    case ReadFd(n) => n - l.Writable()
  }

  /** No operation of the run makes more than `peak` bytes readable or appends more than `longest`. */
  ghost predicate Bounded(l: Layout, ops: seq<Op>, peak: nat, longest: nat)
    requires l.Valid()
    decreases |ops|
  {
    ops == [] ||
    (ApplyValid(l, ops[0]);
     && AppendLength(l, ops[0]) <= longest
     && Apply(l, ops[0]).Readable() <= peak
     && Bounded(Apply(l, ops[0]), ops[1..], peak, longest))
  }

  /** However long a buffer lives, its array stays within the larger of the size it was built with
      and `peak + longest + 7`: space wasted in front of the readable bytes never accumulates. */
  lemma {:induction false} CapacityBound(l: Layout, ops: seq<Op>, peak: nat, longest: nat)
    requires l.Valid()
    requires Bounded(l, ops, peak, longest)
    ensures Run(l, ops).size <= l.size || Run(l, ops).size <= peak + longest + CHEAP_PREPEND - 1
    decreases |ops|
  {
    if ops != [] {
      ApplyValid(l, ops[0]);
      CapacityBound(Apply(l, ops[0]), ops[1..], peak, longest);
    }
  }

  /** One operation more, at the front. */
  lemma RunCons(l: Layout, op: Op, r: Layout, rest: seq<Op>, peak: nat, longest: nat)
    requires l.Valid() && r == Apply(l, op) && r.Valid() && Bounded(r, rest, peak, longest)
    requires AppendLength(l, op) <= longest && r.Readable() <= peak
    ensures Run(l, [op] + rest) == Run(r, rest) && Bounded(l, [op] + rest, peak, longest)
  {
    assert ([op] + rest)[1..] == rest;
  }

  /** The bound is met with equality, so no smaller constant would do: append 2 bytes to an array
      of 10, take 1, append 2 more. */
  lemma CapacityBoundIsTight()
    ensures exists l: Layout, ops: seq<Op> ::
              && l.Valid() && Bounded(l, ops, 3, 2)
              && Run(l, ops).size == 3 + 2 + CHEAP_PREPEND - 1 > l.size
  {
    var l, l1, l2, l3 := Layout(10, 8, 8), Layout(10, 8, 10), Layout(10, 9, 10), Layout(12, 9, 12);
    assert Run(l3, []) == l3 && Bounded(l3, [], 3, 2);
    RunCons(l2, Append(2), l3, [], 3, 2);
    RunCons(l1, Retrieve(1), l2, [Append(2)] + [], 3, 2);
    RunCons(l, Append(2), l1, [Retrieve(1)] + ([Append(2)] + []), 3, 2);
  }
}

/**
 * The single-producer/single-consumer byte ring buffer between the capture
 * thread and the playback engine (cpp/audio/ring_buffer.h). `head` and `tail`
 * count every byte ever written and read; the byte with logical position `p`
 * lives in slot `p % size` of the fixed buffer. Writes and reads are
 * all-or-nothing, and each copies in at most two chunks, splitting where the
 * buffer wraps around.
 */
module Ring {

  newtype byte = x: int | 0 <= x < 256

  function Min(a: nat, b: nat): (m: nat)
    ensures m <= a && m <= b && (m == a || m == b)
  {
    if a <= b then a else b
  }

  // ---- the queue the buffer implements ----

  /** A write of `data` into a queue of capacity `cap` holding `q` is accepted
      iff it fits in the free space. */
  predicate WriteFits(q: seq<byte>, cap: nat, data: seq<byte>) {
    |q| + |data| <= cap
  }

  /** A read of `count` bytes is served iff that many bytes are queued. */
  predicate ReadServed(q: seq<byte>, count: nat) {
    count <= |q|
  }

  /** The operations the producer and the consumer issue. */
  datatype Op = Put(data: seq<byte>) | Take(count: nat)

  /** What a sequence of operations does to the queue: the final contents, the
      bytes accepted by writes and the bytes delivered by reads, in order, and
      the number of writes that returned 0 (rejected, or of nothing). */
  datatype Trace = Trace(queue: seq<byte>, accepted: seq<byte>, delivered: seq<byte>, dropped: nat)

  function Run(q: seq<byte>, cap: nat, ops: seq<Op>): (t: Trace)
    decreases |ops|
  {
    if ops == [] then Trace(q, [], [], 0)
    else
      match ops[0]
      case Put(data) =>
        var dropped := if WriteFits(q, cap, data) && data != [] then 0 else 1;
        if WriteFits(q, cap, data) then
          var t := Run(q + data, cap, ops[1..]);
          Trace(t.queue, data + t.accepted, t.delivered, t.dropped + dropped)
        else
          var t := Run(q, cap, ops[1..]);
          t.(dropped := t.dropped + dropped)
      case Take(count) =>
        if ReadServed(q, count) then
          var t := Run(q[count..], cap, ops[1..]);
          Trace(t.queue, t.accepted, q[..count] + t.delivered, t.dropped)
        else Run(q, cap, ops[1..])
  }

  /** FIFO: the bytes delivered by successful reads, followed by what is still
      queued, are exactly the bytes queued at the start followed by the bytes
      accepted by successful writes. */
  lemma {:induction false} RunIsFifo(q: seq<byte>, cap: nat, ops: seq<Op>)
    ensures q + Run(q, cap, ops).accepted == Run(q, cap, ops).delivered + Run(q, cap, ops).queue
    decreases |ops|
  {
    if ops != [] {
      match ops[0]
      case Put(data) =>
        if WriteFits(q, cap, data) {
          RunIsFifo(q + data, cap, ops[1..]);
          var t := Run(q + data, cap, ops[1..]);
          assert q + (data + t.accepted) == (q + data) + t.accepted;
        } else {
          RunIsFifo(q, cap, ops[1..]);
        }
      case Take(count) =>
        if ReadServed(q, count) {
          RunIsFifo(q[count..], cap, ops[1..]);
          var t := Run(q[count..], cap, ops[1..]);
          assert q == q[..count] + q[count..];
          assert q + t.accepted == q[..count] + (q[count..] + t.accepted);
        } else {
          RunIsFifo(q, cap, ops[1..]);
        }
    }
  }

  /** Running two sequences of operations one after the other. */
  lemma {:induction false} RunSnoc(q: seq<byte>, cap: nat, ops: seq<Op>, more: seq<Op>)
    ensures var t := Run(q, cap, ops);
            var u := Run(t.queue, cap, more);
            Run(q, cap, ops + more) ==
              Trace(u.queue, t.accepted + u.accepted, t.delivered + u.delivered, t.dropped + u.dropped)
    decreases |ops|
  {
    if ops == [] {
      assert ops + more == more;
    } else {
      assert (ops + more)[0] == ops[0] && (ops + more)[1..] == ops[1..] + more;
      match ops[0]
      case Put(data) =>
        if WriteFits(q, cap, data) { RunSnoc(q + data, cap, ops[1..], more); } else { RunSnoc(q, cap, ops[1..], more); }
      case Take(count) =>
        if ReadServed(q, count) { RunSnoc(q[count..], cap, ops[1..], more); } else { RunSnoc(q, cap, ops[1..], more); }
    }
  }

  /** Starting empty, the delivered bytes are a prefix of the accepted bytes. */
  lemma DeliveredIsPrefixOfAccepted(cap: nat, ops: seq<Op>)
    ensures var t := Run([], cap, ops);
            |t.delivered| <= |t.accepted| && t.accepted[..|t.delivered|] == t.delivered
  {
    RunIsFifo([], cap, ops);
    var t := Run([], cap, ops);
    assert [] + t.accepted == t.accepted;
    assert t.accepted == t.delivered + t.queue;
  }

  /** The fill level never exceeds the capacity. */
  lemma {:induction false} RunBounded(q: seq<byte>, cap: nat, ops: seq<Op>)
    requires |q| <= cap
    ensures |Run(q, cap, ops).queue| <= cap
    decreases |ops|
  {
    if ops != [] {
      match ops[0]
      case Put(data) =>
        if WriteFits(q, cap, data) { RunBounded(q + data, cap, ops[1..]); } else { RunBounded(q, cap, ops[1..]); }
      case Take(count) =>
        if ReadServed(q, count) { RunBounded(q[count..], cap, ops[1..]); } else { RunBounded(q, cap, ops[1..]); }
    }
  }

  // ---- modular arithmetic on slots ----

  /** Shifting a position by less than one buffer length moves its slot by the
      same amount, wrapping once at either end. */
  lemma ModShift(h: int, o: int, size: int)
    requires size > 0 && -size <= o < size
    ensures var r := h % size + o;
            (h + o) % size == (if r < 0 then r + size else if r >= size then r - size else r)
  {
    var q := h / size;
    var r := h % size + o;
    assert h == q * size + h % size;
    if r < 0 {
      assert h + o == (q - 1) * size + (r + size);
      ModUnique(h + o, q - 1, r + size, size);
    } else if r >= size {
      assert h + o == (q + 1) * size + (r - size);
      ModUnique(h + o, q + 1, r - size, size);
    } else {
      ModUnique(h + o, q, r, size);
    }
  }

  lemma ModUnique(x: int, q: int, t: int, size: int)
    requires size > 0 && 0 <= t < size && x == q * size + t
    ensures x % size == t
  {
    var q' := x / size;
    var t' := x % size;
    assert x == q' * size + t';
    assert (q - q') * size == t' - t;
    MulBounds(q - q', size);
  }

  lemma MulBounds(d: int, size: int)
    requires size > 0
    ensures d >= 1 ==> d * size >= size
    ensures d <= -1 ==> d * size <= -size
    ensures d == 0 ==> d * size == 0
  {
  }

  class RingBuffer {
    /** `buffer_`: the fixed byte storage. */
    var buffer: array<byte>
    /** `size_`. */
    const size: nat
    /** `head_` and `tail_`: total bytes written and read. */
    var head: nat
    var tail: nat
    /** The queued bytes, oldest first. */
    ghost var Contents: seq<byte>

    /** The slot of logical byte position `p`. */
    function Slot(p: nat): (s: nat)
      reads this
      requires size > 0
      ensures s < size
    {
      p % size
    }

    ghost predicate Valid()
      reads this, buffer
    {
      buffer.Length == size && size > 0 &&
      tail <= head && head - tail <= size && |Contents| == head - tail &&
      forall k :: 0 <= k < |Contents| ==> Contents[k] == buffer[Slot(tail + k)]
    }

    /** `RingBuffer(size_bytes)`; a zero size would make every `% size_` undefined. */
    constructor (sizeBytes: nat)
      requires sizeBytes > 0
      ensures Valid() && fresh(buffer)
      ensures size == sizeBytes && head == 0 && tail == 0 && Contents == []
    {
      buffer := new byte[sizeBytes];
      size := sizeBytes;
      head, tail := 0, 0;
      Contents := [];
    }

    /** `available()`: the number of queued bytes. */
    function Available(): (n: nat)
      reads this, buffer
      requires Valid()
      ensures n == |Contents| && n <= size
    {
      head - tail
    }

    /** `write(data, count)` with `count == |data|`. */
    method Write(data: seq<byte>) returns (written: nat)
      requires Valid()
      modifies this, buffer
      ensures Valid() && buffer == old(buffer) && tail == old(tail)
      ensures WriteFits(old(Contents), size, data) ==>
        written == |data| && head == old(head) + |data| && Contents == old(Contents) + data
      ensures !WriteFits(old(Contents), size, data) ==>
        written == 0 && head == old(head) && Contents == old(Contents) && buffer[..] == old(buffer[..])
    {
      var count := |data|;
      var available := size - (head - tail);
      if count > available {
        return 0;
      }
      var writeIdx := head % size;
      var firstChunk := Min(count, size - writeIdx);
      ghost var before := buffer[..];

      var i := 0;
      while i < firstChunk
        invariant 0 <= i <= firstChunk
        invariant buffer == old(buffer) && head == old(head) && tail == old(tail) && Contents == old(Contents)
        invariant forall j :: 0 <= j < size ==>
          buffer[j] == if writeIdx <= j < writeIdx + i then data[j - writeIdx] else before[j]
      {
        buffer[writeIdx + i] := data[i];
        i := i + 1;
      }
      i := 0;
      while i < count - firstChunk
        invariant 0 <= i <= count - firstChunk
        invariant buffer == old(buffer) && head == old(head) && tail == old(tail) && Contents == old(Contents)
        invariant forall j :: 0 <= j < size ==>
          buffer[j] == if writeIdx <= j < writeIdx + firstChunk then data[j - writeIdx]
                       else if j < i then data[firstChunk + j]
                       else before[j]
      {
        buffer[i] := data[firstChunk + i];
        i := i + 1;
      }

      ghost var n := head - tail;
      forall k | 0 <= k < n + count
        ensures (Contents + data)[k] == buffer[Slot(tail + k)]
      {
        ModShift(head, k - n, size);
        assert tail + k == head + (k - n);
      }
      head := head + count;
      Contents := Contents + data;
      written := count;
    }

    /** `read(dest, count)`: fills `dest[..count]` or, when fewer than `count`
        bytes are queued, does nothing. */
    method Read(dest: array<byte>, count: nat) returns (got: nat)
      requires Valid() && dest != buffer && count <= dest.Length
      modifies this, dest
      ensures Valid() && buffer == old(buffer) && head == old(head)
      ensures buffer[..] == old(buffer[..])
      ensures ReadServed(old(Contents), count) ==>
        got == count && tail == old(tail) + count &&
        dest[..count] == old(Contents)[..count] && dest[count..] == old(dest[count..]) &&
        Contents == old(Contents)[count..]
      ensures !ReadServed(old(Contents), count) ==>
        got == 0 && tail == old(tail) && Contents == old(Contents) && dest[..] == old(dest[..])
    {
      var available := head - tail;
      if available < count {
        return 0;
      }
      var readIdx := tail % size;
      var firstChunk := Min(count, size - readIdx);
      ghost var before := dest[..];

      var i := 0;
      while i < firstChunk
        invariant 0 <= i <= firstChunk
        invariant buffer == old(buffer) && head == old(head) && tail == old(tail) && Contents == old(Contents)
        invariant forall j :: 0 <= j < i ==> dest[j] == buffer[readIdx + j]
        invariant forall j :: i <= j < dest.Length ==> dest[j] == before[j]
      {
        dest[i] := buffer[readIdx + i];
        i := i + 1;
      }
      i := 0;
      while i < count - firstChunk
        invariant 0 <= i <= count - firstChunk
        invariant buffer == old(buffer) && head == old(head) && tail == old(tail) && Contents == old(Contents)
        invariant forall j :: 0 <= j < firstChunk ==> dest[j] == buffer[readIdx + j]
        invariant forall j :: firstChunk <= j < firstChunk + i ==> dest[j] == buffer[j - firstChunk]
        invariant forall j :: firstChunk + i <= j < dest.Length ==> dest[j] == before[j]
      {
        dest[firstChunk + i] := buffer[i];
        i := i + 1;
      }

      forall k | 0 <= k < count
        ensures dest[k] == Contents[k]
      {
        ModShift(tail, k, size);
      }
      assert dest[..count] == Contents[..count];
      tail := tail + count;
      Contents := Contents[count..];
      got := count;
    }
  }
}

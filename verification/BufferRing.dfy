/**
 * The provided-buffer ring of src/IOUring.cpp: 1024 descriptors, a 16-bit tail published by the
 * program, a 16-bit head private to the kernel, and the mapping that holds descriptors and buffers.
 */
module BufferRing {
  import opened Basics

  // Buffers of one page each, 1 << 12 bytes.
  const BUFFERS: nat := 1024
  const BUFFER_SIZE: nat := 4096
  const DESCRIPTOR_SIZE: nat := 16
  const TAIL_WRAP: nat := 65536
  const EXPOSED_AT_START: nat := 512

  /** `buf_ring_size`: every descriptor and every buffer. */
  const MAPPING_SIZE: nat := (DESCRIPTOR_SIZE + BUFFER_SIZE) * BUFFERS

  // ---------------------------------------------------------------------------------------------
  // The circular ring and the FIFO it stands for

  /** `entries[i]` is the buffer id stored in descriptor `i`. */
  datatype BufRing = BufRing(entries: seq<nat>, head: nat, tail: nat)

  predicate RingOk(r: BufRing) {
    |r.entries| == BUFFERS && r.head < TAIL_WRAP && r.tail < TAIL_WRAP
  }

  /** How many descriptors lie between head and tail, both counted modulo 2^16. */
  function Exposed(r: BufRing): nat {
    (r.tail - r.head) % TAIL_WRAP
  }

  /** The buffer ids the kernel may consume, oldest first. */
  function Window(r: BufRing): seq<nat>
    requires RingOk(r)
  {
    seq(Exposed(r), i requires 0 <= i => r.entries[(r.head + i) % BUFFERS])
  }

  /** `io_uring_buf_ring_add`: write a descriptor `offset` places past the tail. */
  function Add(r: BufRing, bid: nat, offset: nat): BufRing
    requires RingOk(r)
  {
    r.(entries := r.entries[(r.tail + offset) % BUFFERS := bid])
  }

  /** `io_uring_buf_ring_advance`: publish `count` descriptors. */
  function Advance(r: BufRing, count: nat): BufRing {
    r.(tail := (r.tail + count) % TAIL_WRAP)
  }

  function Recycle(r: BufRing, bid: nat): BufRing
    requires RingOk(r)
  {
    Advance(Add(r, bid, 0), 1)
  }

  /** The kernel takes the oldest exposed buffer. */
  function Consume(r: BufRing): BufRing {
    r.(head := (r.head + 1) % TAIL_WRAP)
  }

  /** The ring after `setup_buffer_pool`: all descriptors written, half of them published. */
  function SetupRing(): BufRing {
    BufRing(Iota(BUFFERS), 0, EXPOSED_AT_START)
  }

  /** Wrapping a counter at 2^16 is invisible to the index mask, since 1024 divides 2^16. */
  lemma MaskIgnoresWrap(x: nat)
    ensures (x + TAIL_WRAP) % BUFFERS == x % BUFFERS
  {
    ModOfSum(64, x);
    assert BUFFERS * 64 + x == x + TAIL_WRAP;
  }

  lemma {:induction false} ModOfSum(k: nat, y: nat)
    ensures (BUFFERS * k + y) % BUFFERS == y % BUFFERS
  {
    if k != 0 {
      ModOfSum(k - 1, y);
      assert BUFFERS * k + y == BUFFERS * (k - 1) + y + BUFFERS;
    }
  }

  /** One step on, the counter may have wrapped but the descriptors have the same numbers. */
  lemma StepIndex(head: nat, i: nat)
    requires head < TAIL_WRAP
    ensures ((head + 1) % TAIL_WRAP + i) % BUFFERS == (head + 1 + i) % BUFFERS
  {
    if head + 1 == TAIL_WRAP {
      MaskIgnoresWrap(i);
    }
  }

  /** Fewer than 1024 consecutive places never meet the same descriptor twice. */
  lemma PlacesDiffer(head: nat, i: nat, n: nat)
    requires i < n < BUFFERS + i
    ensures (head + i) % BUFFERS != (head + n) % BUFFERS
  {
    var a, b := (head + i) / BUFFERS, (head + n) / BUFFERS;
    assert head + i == BUFFERS * a + (head + i) % BUFFERS;
    assert head + n == BUFFERS * b + (head + n) % BUFFERS;
  }

  lemma ExposedSteps(r: BufRing)
    requires RingOk(r)
    ensures Exposed(r) < TAIL_WRAP
    ensures Exposed(r) > 0 ==> Exposed(Consume(r)) == Exposed(r) - 1
    ensures Exposed(r) < TAIL_WRAP - 1 ==> Exposed(Advance(r, 1)) == Exposed(r) + 1
    ensures RingOk(Consume(r)) && RingOk(Advance(r, 1))
  {
  }

  /** The tail's descriptor is the one right behind the window. */
  lemma TailIndex(r: BufRing)
    requires RingOk(r)
    ensures r.tail % BUFFERS == (r.head + Exposed(r)) % BUFFERS
  {
    if r.tail < r.head {
      MaskIgnoresWrap(r.tail);
      assert r.head + Exposed(r) == r.tail + TAIL_WRAP;
    } else {
      assert r.head + Exposed(r) == r.tail;
    }
  }

  /** A recycle appends at the back of the FIFO, whatever the overwritten descriptor held. */
  lemma RecycleAppends(r: BufRing, bid: nat)
    requires RingOk(r) && Exposed(r) < BUFFERS
    ensures RingOk(Recycle(r, bid))
    ensures Window(Recycle(r, bid)) == Window(r) + [bid]
  {
    var r' := Recycle(r, bid);
    var n := Exposed(r);
    var last := (r.head + n) % BUFFERS;
    TailIndex(r);
    ExposedSteps(r);
    ExposedSteps(Add(r, bid, 0));
    assert Exposed(r') == n + 1;
    assert r'.head == r.head && r'.entries == r.entries[last := bid];
    forall i: nat | i < n + 1
      ensures Window(r')[i] == (Window(r) + [bid])[i]
    {
      if i < n {
        PlacesDiffer(r.head, i, n);
      }
    }
  }

  /** Both counters have 16 bits. */
  lemma CountersWrap(r: BufRing, bid: nat)
    requires RingOk(r)
    ensures Recycle(r, bid).tail == if r.tail == 65535 then 0 else r.tail + 1
    ensures Consume(r).head == if r.head == 65535 then 0 else r.head + 1
  {
  }

  /** A consumption takes the front of the FIFO. */
  lemma ConsumeTakesHead(r: BufRing)
    requires RingOk(r) && Exposed(r) > 0
    ensures RingOk(Consume(r))
    ensures Window(Consume(r)) == Window(r)[1..]
  {
    var r' := Consume(r);
    ExposedSteps(r);
    forall i: nat | i < Exposed(r')
      ensures Window(r')[i] == Window(r)[i + 1]
    {
      StepIndex(r.head, i);
    }
  }

  lemma SetupWindow()
    ensures RingOk(SetupRing()) && Window(SetupRing()) == Iota(EXPOSED_AT_START)
    ensures |Window(SetupRing())| == 512 && forall i :: 0 <= i < 512 ==> Window(SetupRing())[i] == i
    ensures |SetupRing().entries| == 1024 && forall i :: 0 <= i < 1024 ==> SetupRing().entries[i] == i
  {
    forall i: nat | i < EXPOSED_AT_START
      ensures Window(SetupRing())[i] == i
    {
      assert (0 + i) % BUFFERS == i;
    }
  }

  // ---------------------------------------------------------------------------------------------
  // The ring over whole histories: it refines an unbounded queue

  datatype RingOp = Take | Give(bid: nat)

  /** The specification: a plain queue, no capacity, no wrap-around. */
  function FifoRun(q: seq<nat>, ops: seq<RingOp>): Option<seq<nat>>
    decreases |ops|
  {
    if ops == [] then Some(q)
    else match ops[0]
      case Take => if q == [] then None else FifoRun(q[1..], ops[1..])
      case Give(b) => FifoRun(q + [b], ops[1..])
  }

  function RingRun(r: BufRing, ops: seq<RingOp>): BufRing
    requires RingOk(r)
    decreases |ops|
  {
    if ops == [] then r
    else match ops[0]
      case Take => RingRun(Consume(r), ops[1..])
      case Give(b) => RingRun(Recycle(r, b), ops[1..])
  }

  /** Every buffer given back was taken before: the number outstanding never goes below zero. */
  predicate Balanced(outstanding: nat, ops: seq<RingOp>)
    decreases |ops|
  {
    ops == [] ||
    match ops[0]
    case Take => Balanced(outstanding + 1, ops[1..])
    case Give(_) => outstanding > 0 && Balanced(outstanding - 1, ops[1..])
  }

  /**
   * Across any number of wrap-arounds, a history that never gives back more than it took leaves the
   * circular ring showing exactly what the unbounded queue holds, and never overwrites an entry
   * that is still waiting.
   */
  lemma {:induction false} RingRefinesFifo(r: BufRing, outstanding: nat, ops: seq<RingOp>)
    requires RingOk(r) && Exposed(r) + outstanding <= BUFFERS
    requires Balanced(outstanding, ops)
    requires FifoRun(Window(r), ops).Some?
    ensures RingOk(RingRun(r, ops))
    ensures Some(Window(RingRun(r, ops))) == FifoRun(Window(r), ops)
    decreases |ops|
  {
    if ops != [] {
      match ops[0]
      case Take =>
        ConsumeTakesHead(r);
        RingRefinesFifo(Consume(r), outstanding + 1, ops[1..]);
      case Give(b) =>
        RecycleAppends(r, b);
        RingRefinesFifo(Recycle(r, b), outstanding - 1, ops[1..]);
    }
  }

  // ---------------------------------------------------------------------------------------------
  // Memory: the mapping as bytes, and the buffers inside it

  type Memory = seq<Byte>

  /** `get_buffer`, as an offset into the mapping. */
  function BufferOffset(bid: nat): nat {
    DESCRIPTOR_SIZE * BUFFERS + bid * BUFFER_SIZE
  }

  predicate MemoryOk(mem: Memory) {
    |mem| == MAPPING_SIZE
  }

  /** Every buffer lies inside the mapping, behind all descriptors, and apart from every other buffer. */
  lemma BufferGeometry(a: nat, b: nat, d: nat)
    requires a < BUFFERS && b < BUFFERS && d < BUFFERS
    ensures BufferOffset(a) + BUFFER_SIZE <= MAPPING_SIZE
    ensures (d + 1) * DESCRIPTOR_SIZE <= BufferOffset(a)
    ensures a < b ==> BufferOffset(a) + BUFFER_SIZE <= BufferOffset(b)
    ensures a > b ==> BufferOffset(b) + BUFFER_SIZE <= BufferOffset(a)
    ensures BufferOffset(BUFFERS - 1) + BUFFER_SIZE == MAPPING_SIZE
    ensures BufferOffset(a) == 16 * 1024 + 4096 * a && MAPPING_SIZE == (16 + 4096) * 1024
  {
  }

  /** The kernel fills buffer `bid` from its start. */
  function Fill(mem: Memory, bid: nat, data: seq<Byte>): (mem': Memory)
    requires MemoryOk(mem) && bid < BUFFERS && |data| <= BUFFER_SIZE
    ensures MemoryOk(mem')
  {
    BufferGeometry(bid, bid, bid);
    mem[..BufferOffset(bid)] + data + mem[BufferOffset(bid) + |data|..]
  }

  /** The first `len` bytes of buffer `bid`, as a receive handler sees them. */
  function View(mem: Memory, bid: nat, len: nat): seq<Byte>
    requires MemoryOk(mem) && bid < BUFFERS && len <= BUFFER_SIZE
  {
    BufferGeometry(bid, bid, bid);
    mem[BufferOffset(bid)..BufferOffset(bid) + len]
  }

  /** A fill is read back whole, and no byte of any other buffer changes. */
  lemma FillThenView(mem: Memory, bid: nat, data: seq<Byte>, other: nat, len: nat)
    requires MemoryOk(mem) && bid < BUFFERS && |data| <= BUFFER_SIZE
    requires other < BUFFERS && len <= BUFFER_SIZE
    ensures View(Fill(mem, bid, data), bid, |data|) == data
    ensures other != bid ==> View(Fill(mem, bid, data), other, len) == View(mem, other, len)
  {
    BufferGeometry(bid, other, bid);
    BufferGeometry(other, bid, bid);
  }

  // ---------------------------------------------------------------------------------------------
  // The imperative ring

  /** The registered ring: `entries` is shared memory, `head` belongs to the kernel. */
  class BufferPool {
    const entries: array<nat>
    var head: nat
    var tail: nat

    ghost predicate Valid()
      reads this, entries
    {
      RingOk(Value())
    }

    ghost function Value(): BufRing
      reads this, entries
    {
      BufRing(entries[..], head, tail)
    }

    /** `setup_buffer_pool`: write all 1024 descriptors, publish 512 of them. */
    constructor ()
      ensures Valid() && fresh(entries)
      ensures Value() == SetupRing()
      ensures entries.Length == 1024 && forall i :: 0 <= i < 1024 ==> entries[i] == i
      ensures |Window(Value())| == 512 && forall i :: 0 <= i < 512 ==> Window(Value())[i] == i
    {
      entries := new nat[BUFFERS](_ => 0);
      head := 0;
      tail := 0;
      new;
      var i := 0;
      while i < BUFFERS
        invariant i <= BUFFERS && head == 0 && tail == 0
        invariant forall k :: 0 <= k < i ==> entries[k] == k
      {
        AddDescriptor(i, i);
        i := i + 1;
      }
      tail := (tail + BUFFERS / 2) % TAIL_WRAP;
      assert entries[..] == Iota(BUFFERS);
      SetupWindow();
    }

    method AddDescriptor(bid: nat, offset: nat)
      requires entries.Length == BUFFERS
      modifies entries
      ensures entries[..] == old(entries[..])[(tail + offset) % BUFFERS := bid]
    {
      entries[(tail + offset) % BUFFERS] := bid;
    }

    /** `recycle_buffer`: one descriptor written at the tail, then published. */
    method RecycleBuffer(bid: nat)
      requires Valid()
      modifies this`tail, entries
      ensures Valid()
      ensures Value() == Recycle(old(Value()), bid)
      ensures Exposed(old(Value())) < BUFFERS ==> Window(Value()) == Window(old(Value())) + [bid]
    {
      if Exposed(Value()) < BUFFERS {
        RecycleAppends(Value(), bid);
      }
      AddDescriptor(bid, 0);
      tail := (tail + 1) % TAIL_WRAP;
    }

    /** The kernel's side: take the oldest published buffer. */
    method ConsumeBuffer() returns (bid: nat)
      requires Valid() && Exposed(Value()) > 0
      modifies this`head
      ensures Valid()
      ensures Value() == Consume(old(Value()))
      ensures [bid] + Window(Value()) == Window(old(Value()))
      ensures bid == old(Value()).entries[old(head) % BUFFERS]
    {
      ConsumeTakesHead(Value());
      bid := entries[head % BUFFERS];
      head := (head + 1) % TAIL_WRAP;
    }
  }
}

/**
 * The bounded serialiser of include/iuring/SendPacket.hpp: a 4096-byte array filled from the front,
 * whose cheap `reset` clears only the bytes in use.
 */
module SendPackets {
  import opened Basics

  const CAPACITY: nat := 4096

  // ---------------------------------------------------------------------------------------------
  // Fields, and what they look like in memory

  datatype Endian = Little | Big

  /** One call of an `append*` method or of `emplace_back`. */
  datatype Field =
    | U8(v: Byte)
    | U16(word: nat)
    | U32(long: nat)
    | Bytes(bytes: seq<Byte>)        // std::string, raw pointer and length, or the bytes of an object
    | CString(chars: seq<Byte>)      // characters up to the terminating 0, which `chars` leaves out
    | Emplaced(object: seq<Byte>)    // the object representation `emplace_back` constructs

  predicate FieldOk(f: Field) {
    match f
    case U16(w) => w < 0x1_0000
    case U32(l) => l < 0x1_0000_0000
    case _ => true
  }

  /** How the host stores an unsigned integer of two or four bytes. */
  function Stored16(e: Endian, n: nat): seq<Byte>
    requires n < 0x1_0000
  {
    if e == Little then [n % 256, n / 256] else [n / 256, n % 256]
  }

  function Stored32(e: Endian, n: nat): seq<Byte>
    requires n < 0x1_0000_0000
  {
    if e == Little
    then [n % 256, n / 256 % 256, n / 65536 % 256, n / 16777216]
    else [n / 16777216, n / 65536 % 256, n / 256 % 256, n % 256]
  }

  /** `ntohs` and `ntohl`: a byte swap on little-endian hosts, nothing on big-endian ones. */
  function Ntohs(e: Endian, n: nat): (r: nat)
    requires n < 0x1_0000
    ensures r < 0x1_0000
  {
    if e == Little then n % 256 * 256 + n / 256 else n
  }

  function Ntohl(e: Endian, n: nat): (r: nat)
    requires n < 0x1_0000_0000
    ensures r < 0x1_0000_0000
  {
    if e == Little
    then n % 256 * 16777216 + n / 256 % 256 * 65536 + n / 65536 % 256 * 256 + n / 16777216
    else n
  }

  /** `strlen`: the characters before the first 0. */
  function UpToNul(s: seq<Byte>): (r: seq<Byte>)
    ensures r <= s && 0 !in r
    ensures |r| < |s| ==> s[|r|] == 0
  {
    if s == [] || s[0] == 0 then [] else
      var rest := UpToNul(s[1..]);
      assert s == [s[0]] + s[1..];
      [s[0]] + rest
  }

  /** The bytes one append copies into the buffer on a host of the given endianness. */
  function Encode(e: Endian, f: Field): seq<Byte>
    requires FieldOk(f)
  {
    match f
    case U8(v) => [v]
    case U16(w) => Stored16(e, Ntohs(e, w))
    case U32(l) => Stored32(e, Ntohl(e, l))
    case Bytes(b) => b
    case CString(c) => UpToNul(c)
    case Emplaced(o) => o
  }

  /** Most significant byte first, as Appendix B of RFC 791 asks, whatever the host. */
  lemma NetworkByteOrder(e: Endian, w: nat, l: nat)
    requires w < 0x1_0000 && l < 0x1_0000_0000
    ensures Encode(e, U16(w)) == [w / 256, w % 256]
    ensures Encode(e, U32(l)) == [l / 16777216, l / 65536 % 256, l / 256 % 256, l % 256]
  {
    if e == Little {
      LastDigit(w % 256, w / 256);
      SwappedBytes(l);
    }
  }

  /** Taking the last base-256 digit off a number. */
  lemma LastDigit(q: nat, r: nat)
    requires r < 256
    ensures (q * 256 + r) / 256 == q && (q * 256 + r) % 256 == r
  {
  }

  lemma DivTwice(n: nat)
    ensures n / 256 / 256 == n / 65536 && n / 65536 / 256 == n / 16777216
  {
  }

  /** The four bytes of a swapped word are the word's bytes in reverse. */
  lemma SwappedBytes(l: nat)
    requires l < 0x1_0000_0000
    ensures var n := Ntohl(Little, l);
      && n % 256 == l / 16777216 && n / 256 % 256 == l / 65536 % 256
      && n / 65536 % 256 == l / 256 % 256 && n / 16777216 == l % 256
  {
    ReversedDigits(l / 16777216, l / 65536 % 256, l / 256 % 256, l % 256);
  }

  lemma ReversedDigits(a: nat, b: nat, c: nat, d: nat)
    requires a < 256 && b < 256 && c < 256 && d < 256
    ensures var n := d * 16777216 + c * 65536 + b * 256 + a;
      n % 256 == a && n / 256 % 256 == b && n / 65536 % 256 == c && n / 16777216 == d
  {
    var n2 := d * 256 + c;
    var n1 := n2 * 256 + b;
    var n := n1 * 256 + a;
    LastDigit(n1, a);
    LastDigit(n2, b);
    LastDigit(d, c);
    DivTwice(n);
  }

  // ---------------------------------------------------------------------------------------------
  // Concatenation, and its inverse

  predicate FieldsOk(fields: seq<Field>) {
    forall i :: 0 <= i < |fields| ==> FieldOk(fields[i])
  }

  function EncodeAll(e: Endian, fields: seq<Field>): seq<Byte>
    requires FieldsOk(fields)
  {
    if fields == [] then [] else EncodeAll(e, fields[..|fields| - 1]) + Encode(e, fields[|fields| - 1])
  }

  /** What a reader must know to take a packet apart. */
  datatype Shape = Shape8 | Shape16 | Shape32 | ShapeBytes(len: nat)

  function ShapeOf(f: Field): Shape {
    match f
    case U8(_) => Shape8
    case U16(_) => Shape16
    case U32(_) => Shape32
    case Bytes(b) => ShapeBytes(|b|)
    case CString(c) => ShapeBytes(|UpToNul(c)|)
    case Emplaced(o) => ShapeBytes(|o|)
  }

  datatype Value = Number(n: nat) | Data(bytes: seq<Byte>)

  /** The value a field stands for: integers as numbers, a C string up to its terminator. */
  function ValueOf(f: Field): Value {
    match f
    case U8(v) => Number(v)
    case U16(w) => Number(w)
    case U32(l) => Number(l)
    case Bytes(b) => Data(b)
    case CString(c) => Data(UpToNul(c))
    case Emplaced(o) => Data(o)
  }

  function Width(s: Shape): nat {
    match s
    case Shape8 => 1
    case Shape16 => 2
    case Shape32 => 4
    case ShapeBytes(n) => n
  }

  /** Read the bytes of one field, most significant byte first. */
  function Decode(s: Shape, b: seq<Byte>): Value
    requires |b| == Width(s)
  {
    match s
    case Shape8 => Number(b[0])
    case Shape16 => Number((b[0] as nat) * 256 + b[1])
    case Shape32 => Number((b[0] as nat) * 16777216 + (b[1] as nat) * 65536 + (b[2] as nat) * 256 + b[3])
    case ShapeBytes(_) => Data(b)
  }

  function DecodeAll(shapes: seq<Shape>, b: seq<Byte>): Option<seq<Value>> {
    if shapes == [] then if b == [] then Some([]) else None
    else
      var w := Width(shapes[0]);
      if |b| < w then None
      else match DecodeAll(shapes[1..], b[w..])
        case None => None
        case Some(vs) => Some([Decode(shapes[0], b[..w])] + vs)
  }

  function ShapesOf(fields: seq<Field>): (r: seq<Shape>)
    ensures |r| == |fields|
  {
    seq(|fields|, i requires 0 <= i < |fields| => ShapeOf(fields[i]))
  }

  function ValuesOf(fields: seq<Field>): (r: seq<Value>)
    ensures |r| == |fields|
  {
    seq(|fields|, i requires 0 <= i < |fields| => ValueOf(fields[i]))
  }

  lemma FieldRoundTrip(e: Endian, f: Field)
    requires FieldOk(f)
    ensures |Encode(e, f)| == Width(ShapeOf(f))
    ensures Decode(ShapeOf(f), Encode(e, f)) == ValueOf(f)
  {
    match f
    case U16(w) => NetworkByteOrder(e, w, 0);
    case U32(l) => NetworkByteOrder(e, 0, l); WordFromBytes(l);
    case _ =>
  }

  lemma WordFromBytes(l: nat)
    requires l < 0x1_0000_0000
    ensures l / 16777216 * 16777216 + l / 65536 % 256 * 65536 + l / 256 % 256 * 256 + l % 256 == l
  {
    assert l / 256 / 256 == l / 65536 && l / 65536 / 256 == l / 16777216;
    assert l == l / 256 * 256 + l % 256;
    assert l / 256 == l / 65536 * 256 + l / 256 % 256;
    assert l / 65536 == l / 16777216 * 256 + l / 65536 % 256;
  }

  lemma {:induction false} EncodeAllConcat(e: Endian, a: seq<Field>, b: seq<Field>)
    requires FieldsOk(a) && FieldsOk(b)
    ensures FieldsOk(a + b) && EncodeAll(e, a + b) == EncodeAll(e, a) + EncodeAll(e, b)
    decreases |b|
  {
    if b == [] {
      assert a + b == a;
    } else {
      var front, last := b[..|b| - 1], b[|b| - 1];
      EncodeAllConcat(e, a, front);
      assert (a + b)[..|a + b| - 1] == a + front && (a + b)[|a + b| - 1] == last;
    }
  }

  lemma EncodeAllFront(e: Endian, fields: seq<Field>)
    requires fields != [] && FieldsOk(fields)
    ensures EncodeAll(e, fields) == Encode(e, fields[0]) + EncodeAll(e, fields[1..])
  {
    var first := [fields[0]];
    assert first[..0] == [] && EncodeAll(e, first) == Encode(e, fields[0]);
    assert fields == first + fields[1..];
    EncodeAllConcat(e, first, fields[1..]);
  }

  lemma ListsFront(fields: seq<Field>)
    requires fields != []
    ensures ShapesOf(fields) == [ShapeOf(fields[0])] + ShapesOf(fields[1..])
    ensures ValuesOf(fields) == [ValueOf(fields[0])] + ValuesOf(fields[1..])
  {
  }

  lemma DecodeAllFront(shape: Shape, shapes: seq<Shape>, x: seq<Byte>, y: seq<Byte>, vs: seq<Value>)
    requires |x| == Width(shape) && DecodeAll(shapes, y) == Some(vs)
    ensures DecodeAll([shape] + shapes, x + y) == Some([Decode(shape, x)] + vs)
  {
    assert ([shape] + shapes)[1..] == shapes;
    assert (x + y)[..|x|] == x && (x + y)[|x|..] == y;
  }

  /** Reading a packet back by its field list gives the values that were appended. */
  lemma {:induction false} RoundTrip(e: Endian, fields: seq<Field>)
    requires FieldsOk(fields)
    ensures DecodeAll(ShapesOf(fields), EncodeAll(e, fields)) == Some(ValuesOf(fields))
    decreases |fields|
  {
    if fields != [] {
      var f, rest := fields[0], fields[1..];
      RoundTrip(e, rest);
      EncodeAllFront(e, fields);
      FieldRoundTrip(e, f);
      DecodeAllFront(ShapeOf(f), ShapesOf(rest), Encode(e, f), EncodeAll(e, rest), ValuesOf(rest));
      ListsFront(fields);
    }
  }

  lemma Associate(a: seq<Byte>, b: seq<Byte>, c: seq<Byte>)
    ensures (a + b) + c == a + (b + c)
  {
  }

  /** The same behind bytes that were there before. */
  lemma RoundTripBehind(before: seq<Byte>, e: Endian, fields: seq<Field>)
    requires FieldsOk(fields)
    ensures DecodeAll(ShapesOf(fields), (before + EncodeAll(e, fields))[|before|..]) == Some(ValuesOf(fields))
  {
    assert (before + EncodeAll(e, fields))[|before|..] == EncodeAll(e, fields);
    RoundTrip(e, fields);
  }

  // ---------------------------------------------------------------------------------------------
  // The buffer over sequences of operations

  /** The buffer's bytes and how many of them are in use. */
  datatype Packet = Packet(buf: seq<Byte>, size: nat)

  predicate PacketOk(p: Packet) {
    |p.buf| == CAPACITY && p.size < CAPACITY
  }

  predicate Fits(p: Packet, data: seq<Byte>) {
    p.size + |data| < CAPACITY
  }

  /** The assertion of the appends, in numbers. */
  lemma FitsBelow(p: Packet, data: seq<Byte>)
    requires PacketOk(p)
    ensures |p.buf| == 4096 && (LegalOps(p, [AppendData(data)]) <==> p.size + |data| < 4096)
  {
    assert [AppendData(data)][1..] == [];
  }

  function Append(p: Packet, data: seq<Byte>): (p': Packet)
    requires PacketOk(p) && Fits(p, data)
    ensures PacketOk(p')
    ensures p'.buf[..p'.size] == p.buf[..p.size] + data
    ensures p'.buf[p'.size..] == p.buf[p'.size..]
  {
    Packet(p.buf[..p.size] + data + p.buf[p.size + |data|..], p.size + |data|)
  }

  /** What an append leaves, byte by byte. */
  lemma AppendAt(p: Packet, data: seq<Byte>, buf: seq<Byte>)
    requires PacketOk(p) && Fits(p, data) && |buf| == CAPACITY
    requires forall k :: 0 <= k < |data| ==> buf[p.size + k] == data[k]
    requires forall k :: 0 <= k < p.size || p.size + |data| <= k < CAPACITY ==> buf[k] == p.buf[k]
    ensures Packet(buf, p.size + |data|) == Append(p, data)
  {
    assert buf[p.size..p.size + |data|] == data;
    assert buf == buf[..p.size] + buf[p.size..p.size + |data|] + buf[p.size + |data|..];
  }

  function Zeros(n: nat): seq<Byte> {
    seq(n, _ => 0)
  }

  /** `reset`: clear the bytes in use. */
  function Reset(p: Packet): (p': Packet)
    requires PacketOk(p)
    ensures PacketOk(p')
  {
    Packet(Zeros(p.size) + p.buf[p.size..], 0)
  }

  /** `clean_proper`: clear everything. */
  function CleanProper(p: Packet): (p': Packet)
    ensures PacketOk(p')
  {
    Packet(Zeros(CAPACITY), 0)
  }

  datatype PacketOp = AppendData(data: seq<Byte>) | ResetOp | CleanOp

  /** The assertions of the appends hold. */
  predicate LegalOps(p: Packet, ops: seq<PacketOp>)
    requires PacketOk(p)
    decreases |ops|
  {
    ops == [] ||
    match ops[0]
    case AppendData(d) => Fits(p, d) && LegalOps(Append(p, d), ops[1..])
    case ResetOp => LegalOps(Reset(p), ops[1..])
    case CleanOp => LegalOps(CleanProper(p), ops[1..])
  }

  function RunOps(p: Packet, ops: seq<PacketOp>): (p': Packet)
    requires PacketOk(p) && LegalOps(p, ops)
    ensures PacketOk(p')
    decreases |ops|
  {
    if ops == [] then p
    else match ops[0]
      case AppendData(d) => RunOps(Append(p, d), ops[1..])
      case ResetOp => RunOps(Reset(p), ops[1..])
      case CleanOp => RunOps(CleanProper(p), ops[1..])
  }

  /** Every byte past the used ones is zero. */
  predicate CleanTail(p: Packet)
    requires PacketOk(p)
  {
    forall i :: p.size <= i < CAPACITY ==> p.buf[i] == 0
  }

  /** The cheap reset does the work of the full clear exactly when the unused bytes are zero. */
  lemma ResetIsCleanIffTailZero(p: Packet)
    requires PacketOk(p)
    ensures Reset(p) == CleanProper(p) <==> CleanTail(p)
  {
    var r, c := Reset(p), CleanProper(p);
    if CleanTail(p) {
      forall i | 0 <= i < CAPACITY
        ensures r.buf[i] == c.buf[i]
      {
        if i >= p.size {
          assert r.buf[i] == p.buf[p.size..][i - p.size];
        }
      }
    } else {
      var i :| p.size <= i < CAPACITY && p.buf[i] != 0;
      assert r.buf[i] == p.buf[p.size..][i - p.size] != 0;
      assert c.buf[i] == 0;
    }
  }

  lemma {:induction false} OpsKeepCleanTail(p: Packet, ops: seq<PacketOp>)
    requires PacketOk(p) && LegalOps(p, ops) && CleanTail(p)
    ensures CleanTail(RunOps(p, ops))
    decreases |ops|
  {
    if ops != [] {
      match ops[0]
      case AppendData(d) =>
        var p' := Append(p, d);
        forall i | p'.size <= i < CAPACITY
          ensures p'.buf[i] == 0
        {
          assert p'.buf[i] == p'.buf[p'.size..][i - p'.size] == p.buf[i];
        }
        OpsKeepCleanTail(p', ops[1..]);
      case ResetOp =>
        ResetIsCleanIffTailZero(p);
        OpsKeepCleanTail(Reset(p), ops[1..]);
      case CleanOp => OpsKeepCleanTail(CleanProper(p), ops[1..]);
    }
  }

  /** From any state reached since a `clean_proper`, the cheap reset leaves the same buffer as another one. */
  lemma ResetAfterCleanIsClean(p: Packet, ops: seq<PacketOp>)
    requires PacketOk(p) && LegalOps(CleanProper(p), ops)
    ensures Reset(RunOps(CleanProper(p), ops)) == CleanProper(RunOps(CleanProper(p), ops))
  {
    OpsKeepCleanTail(CleanProper(p), ops);
    ResetIsCleanIffTailZero(RunOps(CleanProper(p), ops));
  }

  /** The bytes reset or appended over so far: how far the buffer is known, given `known` at the start. */
  function Reach(p: Packet, ops: seq<PacketOp>, known: nat): nat
    requires PacketOk(p) && LegalOps(p, ops)
    decreases |ops|
  {
    if ops == [] then Max(known, p.size)
    else match ops[0]
      case AppendData(d) => Reach(Append(p, d), ops[1..], Max(known, p.size))
      case ResetOp => Reach(Reset(p), ops[1..], Max(known, p.size))
      case CleanOp => Reach(CleanProper(p), ops[1..], CAPACITY)
  }

  /** Between the used bytes and `known`, all is zero; from `known` on, the buffer is the original one. */
  predicate KnownUpTo(p: Packet, known: nat, original: seq<Byte>)
    requires PacketOk(p) && |original| == CAPACITY
  {
    && (forall i :: p.size <= i < known && i < CAPACITY ==> p.buf[i] == 0)
    && (forall i :: Max(known, p.size) <= i < CAPACITY ==> p.buf[i] == original[i])
  }

  lemma {:induction false} OpsKeepKnown(p: Packet, ops: seq<PacketOp>, known: nat, original: seq<Byte>)
    requires PacketOk(p) && LegalOps(p, ops) && |original| == CAPACITY && KnownUpTo(p, known, original)
    ensures KnownUpTo(RunOps(p, ops), Reach(p, ops, known), original)
    decreases |ops|
  {
    if ops != [] {
      match ops[0]
      case AppendData(d) =>
        var p' := Append(p, d);
        forall i | p'.size <= i < CAPACITY
          ensures p'.buf[i] == p.buf[i]
        {
          assert p'.buf[i] == p'.buf[p'.size..][i - p'.size];
        }
        OpsKeepKnown(p', ops[1..], Max(known, p.size), original);
      case ResetOp =>
        var p' := Reset(p);
        forall i | 0 <= i < CAPACITY
          ensures p'.buf[i] == if i < p.size then 0 else p.buf[i]
        {
          if i >= p.size {
            assert p'.buf[i] == p.buf[p.size..][i - p.size];
          }
        }
        OpsKeepKnown(p', ops[1..], Max(known, p.size), original);
      case CleanOp => OpsKeepKnown(CleanProper(p), ops[1..], CAPACITY, original);
    }
  }

  /**
   * A packet starts with an uninitialised array. After any legal operations the cheap reset leaves
   * the buffer `clean_proper` would leave if and only if the bytes the operations never reached
   * were zero from the start.
   */
  lemma ResetFromFreshIsCleanIff(garbage: seq<Byte>, ops: seq<PacketOp>)
    requires |garbage| == CAPACITY && LegalOps(Packet(garbage, 0), ops)
    ensures var p := RunOps(Packet(garbage, 0), ops);
      Reset(p) == CleanProper(p) <==>
        forall i :: Reach(Packet(garbage, 0), ops, 0) <= i < CAPACITY ==> garbage[i] == 0
  {
    var p0 := Packet(garbage, 0);
    var p := RunOps(p0, ops);
    var reach := Reach(p0, ops, 0);
    OpsKeepKnown(p0, ops, 0, garbage);
    ReachCoversSize(p0, ops, 0);
    ResetIsCleanIffTailZero(p);
    assert forall i :: reach <= i < CAPACITY ==> p.buf[i] == garbage[i];
  }

  /**
   * A fresh packet whose array happens to hold one non-zero byte all over, and what is appended to
   * it first: the reset that follows leaves that byte at the end, the full clear would not.
   */
  lemma ResetLeavesGarbage(x: Byte, data: seq<Byte>)
    requires x != 0 && |data| < CAPACITY
    ensures var p0 := Packet(seq(CAPACITY, _ => x), 0); var ops := [AppendData(data)];
      && LegalOps(p0, []) && LegalOps(p0, ops)
      && Reset(RunOps(p0, [])) == p0
      && Reset(RunOps(p0, ops)).buf[CAPACITY - 1] == x
      && CleanProper(RunOps(p0, ops)).buf[CAPACITY - 1] == 0
      && Reset(RunOps(p0, ops)) != CleanProper(RunOps(p0, ops))
  {
    var p0 := Packet(seq(CAPACITY, _ => x), 0);
    var ops, p := [AppendData(data)], Append(p0, data);
    assert ops[1..] == [] && RunOps(p0, ops) == p;
    assert p.buf[CAPACITY - 1] == p.buf[p.size..][CAPACITY - 1 - p.size] == x;
    assert Reset(p0).buf == p0.buf;
  }

  lemma {:induction false} ReachCoversSize(p: Packet, ops: seq<PacketOp>, known: nat)
    requires PacketOk(p) && LegalOps(p, ops)
    ensures Reach(p, ops, known) >= RunOps(p, ops).size
    decreases |ops|
  {
    if ops != [] {
      match ops[0]
      case AppendData(d) => ReachCoversSize(Append(p, d), ops[1..], Max(known, p.size));
      case ResetOp => ReachCoversSize(Reset(p), ops[1..], Max(known, p.size));
      case CleanOp => ReachCoversSize(CleanProper(p), ops[1..], CAPACITY);
    }
  }

  // ---------------------------------------------------------------------------------------------
  // The imperative packet

  class SendPacket {
    const buf: array<Byte>
    var size: nat

    ghost predicate Valid()
      reads this, buf
    {
      PacketOk(Value())
    }

    ghost function Value(): Packet
      reads this, buf
    {
      Packet(buf[..], size)
    }

    /** The bytes to send. */
    ghost function Contents(): seq<Byte>
      requires Valid()
      reads this, buf
    {
      buf[..size]
    }

    /** The array is left as it comes. */
    constructor (garbage: seq<Byte>)
      requires |garbage| == 4096
      ensures Valid() && fresh(buf) && Value() == Packet(garbage, 0)
    {
      buf := new Byte[CAPACITY](i requires 0 <= i < CAPACITY => garbage[i]);
      size := 0;
      new;
      assert buf[..] == garbage;
    }

    /** `append(const uint8_t*, size_t)`, with its assertion as precondition; the copy is `memcpy`. */
    method AppendBytes(data: seq<Byte>)
      requires Valid() && size + |data| < CAPACITY
      modifies this`size, buf
      ensures Valid() && Value() == Append(old(Value()), data)
      ensures Contents() == old(Contents()) + data
    {
      ghost var was := buf[..];
      var i := 0;
      while i < |data|
        invariant i <= |data| && size == old(size)
        invariant forall k :: 0 <= k < i ==> buf[size + k] == data[k]
        invariant forall k :: 0 <= k < size || size + i <= k < CAPACITY ==> buf[k] == was[k]
      {
        buf[size + i] := data[i];
        i := i + 1;
      }
      size := size + |data|;
      AppendAt(Packet(was, old(size)), data, buf[..]);
    }

    /** The same with the assertion in it: it holds exactly while the new size is below 4096. */
    method AppendChecked(data: seq<Byte>) returns (ok: bool)
      requires Valid()
      modifies this`size, buf
      ensures Valid() && buf.Length == 4096
      ensures ok == (old(size) + |data| < 4096)
      ensures ok ==> Contents() == old(Contents()) + data && buf[size..] == old(buf[..])[size..]
      ensures !ok ==> Value() == old(Value())
    {
      ok := size + |data| < buf.Length;
      if ok {
        AppendBytes(data);
      }
    }

    method AppendField(e: Endian, f: Field)
      requires Valid() && FieldOk(f) && size + |Encode(e, f)| < CAPACITY
      modifies this`size, buf
      ensures Valid() && Value() == Append(old(Value()), Encode(e, f))
      ensures Contents() == old(Contents()) + Encode(e, f)
    {
      AppendBytes(Encode(e, f));
    }

    /** Any legal sequence of appends adds the concatenated encodings, and a reader gets the values back. */
    method AppendFields(e: Endian, fields: seq<Field>)
      requires Valid() && FieldsOk(fields) && size + |EncodeAll(e, fields)| < CAPACITY
      modifies this`size, buf
      ensures Valid() && size < CAPACITY
      ensures Contents() == old(Contents()) + EncodeAll(e, fields)
      ensures DecodeAll(ShapesOf(fields), Contents()[old(size)..]) == Some(ValuesOf(fields))
      decreases |fields|
    {
      RoundTripBehind(Contents(), e, fields);
      if fields != [] {
        ghost var before, first, rest := Contents(), Encode(e, fields[0]), EncodeAll(e, fields[1..]);
        assert EncodeAll(e, fields) == first + rest by { EncodeAllFront(e, fields); }
        Associate(before, first, rest);
        AppendField(e, fields[0]);
        AppendFields(e, fields[1..]);
      }
    }

    method ResetPacket()
      requires Valid()
      modifies this`size, buf
      ensures Valid() && Value() == Reset(old(Value())) && Contents() == []
    {
      Clear(size);
      assert buf[..] == buf[..size] + buf[size..];
      size := 0;
    }

    method CleanProperly()
      requires Valid()
      modifies this`size, buf
      ensures Valid() && Value() == CleanProper(old(Value())) && Contents() == []
    {
      size := 0;
      Clear(CAPACITY);
    }

    /** `memset` of the first `n` bytes to zero. */
    method Clear(n: nat)
      requires n <= CAPACITY == buf.Length
      modifies buf
      ensures buf[..n] == Zeros(n) && buf[n..] == old(buf[n..])
    {
      var i := 0;
      while i < n
        invariant i <= n
        invariant forall k :: 0 <= k < i ==> buf[k] == 0
        invariant buf[n..] == old(buf[n..])
      {
        buf[i] := 0;
        i := i + 1;
      }
    }
  }
}

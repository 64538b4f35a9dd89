/**
 * What becomes of a successful or failed receive, told from the bytes in its buffer one by one, with
 * the numbers of the system interface written out.
 */
module Receives {
  import opened Basics
  import opened BufferRing
  import opened WorkPools
  import opened Engine

  /**
   * A datagram nobody gets to see: too short for its header and the room for a name, with a name
   * longer than that room, or cut off, which is bit 5 of the flags.
   */
  predicate SentBack(data: seq<Byte>) {
    || |data| < 144
    || data[0] > 128 || data[1] != 0 || data[2] != 0 || data[3] != 0
    || data[12] / 32 % 2 == 1
  }

  /** The sender has no address, an IPv4 one or an IPv6 one. */
  predicate KnownSender(data: seq<Byte>)
    requires !SentBack(data)
  {
    data[0] == 0 || data[0] == 16 || data[0] == 28
  }

  lemma Quotient(n: nat, m: nat)
    requires m < 32
    ensures (32 * n + m) / 32 == n
  {
  }

  lemma Parity(n: nat, rest: nat)
    ensures (n + 8 * rest) % 2 == n % 2
  {
    assert n + 8 * rest == n + 2 * (4 * rest);
  }

  /** Only the lowest byte of the flags decides about bit 5. */
  lemma LowByteDecides(low: nat, rest: nat)
    requires low < 256
    ensures (low + 256 * rest) / 32 % 2 == low / 32 % 2
  {
    var n, m := low / 32, low % 32;
    Quotient(n + 8 * rest, m);
    Parity(n, rest);
  }

  lemma WordIsLarge(data: seq<Byte>, i: nat)
    requires i + 4 <= |data|
    ensures HeaderWord(data, i) <= 128 <==> data[i] <= 128 && data[i + 1] == data[i + 2] == data[i + 3] == 0
    ensures HeaderWord(data, i) <= 128 ==> HeaderWord(data, i) == data[i]
    ensures HeaderWord(data, i) / 32 % 2 == data[i] / 32 % 2
  {
    var rest := data[i + 1] + data[i + 2] as nat * 0x100 + data[i + 3] as nat * 0x1_0000;
    assert HeaderWord(data, i) == data[i] + 256 * rest;
    LowByteDecides(data[i], rest);
  }

  /** The checks of the handler, as the bytes decide them. */
  lemma JudgedByBytes(data: seq<Byte>)
    ensures Judge(data) ==
            if SentBack(data) then Resubmit else if KnownSender(data) then Deliver else Reject
    ensures |data| >= 144 ==> Payload(data) == data[144..]
  {
    if |data| >= 144 {
      WordIsLarge(data, 0);
      WordIsLarge(data, 12);
    }
  }

  /**
   * A datagram in its buffer: sent back unseen, its buffer given back; or shown to the callback from
   * its 144th byte on; or the end of the program.
   */
  lemma DatagramReceived(s: State, o: nat, c: Cqe)
    requires StateOk(s) && o < |s.pool.objs| && !s.pool.objs[o].stream && s.pool.objs[o].alt == RecvFn
    requires c.bid.Some? && c.bid.value < 1024 && 0 <= c.res <= 4096
    ensures var data := View(s.mem, c.bid.value, c.res); var s' := DispatchRecv(s, o, c);
      s' == if SentBack(data) then s.(ring := Recycle(s.ring, c.bid.value), phase := Returned(o, Rearm))
            else if KnownSender(data) then
              s.(phase := InCallback(o), log := s.log + [Call(o, RecvFn, s.pool.objs[o].fn, c.res, data[144..])])
            else s.(halt := Aborted)
  {
    JudgedByBytes(View(s.mem, c.bid.value, c.res));
  }

  /** What a stream receives is shown as it is. */
  lemma StreamReceived(s: State, o: nat, c: Cqe)
    requires StateOk(s) && o < |s.pool.objs| && s.pool.objs[o].stream && s.pool.objs[o].alt == RecvFn
    requires c.bid.Some? && c.bid.value < 1024 && 0 <= c.res <= 4096
    ensures DispatchRecv(s, o, c) == s.(
      phase := InCallback(o),
      log := s.log + [Call(o, RecvFn, s.pool.objs[o].fn, c.res, View(s.mem, c.bid.value, c.res))])
  {
  }

  /** A receive that failed is submitted again for -104, and otherwise ends the program. */
  lemma ReceiveFailed(s: State, o: nat, c: Cqe)
    requires StateOk(s) && o < |s.pool.objs| && c.res < 0
    ensures DispatchRecv(s, o, c) == if c.res == -104 then s.(phase := Returned(o, Rearm)) else s.(halt := Aborted)
  {
  }

  /** A datagram from an IPv6 sender, and one from nobody, are delivered like any other. */
  lemma OtherSendersDeliver(length: Byte, control: seq<Byte>, name: seq<Byte>, payload: seq<Byte>)
    requires length in {0, 28} && |control| == 8 && |name| == 128
    ensures var data := [length, 0, 0, 0] + control + [0, 0, 0, 0] + name + payload;
      Judge(data) == Deliver && Payload(data) == payload
  {
    JudgedByBytes([length, 0, 0, 0] + control + [0, 0, 0, 0] + name + payload);
  }
}

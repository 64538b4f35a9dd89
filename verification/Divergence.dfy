/**
 * Stale frees show. The simulation asks for runs without them; this is what becomes of it otherwise:
 * the very next datagram for the freed id has its callback run by the ticket machine, and by the
 * engine no more.
 */
module Divergence {
  import opened Basics
  import opened BufferRing
  import opened WorkPools
  import opened Engine
  import opened Routing
  import Buffers
  import opened Tickets
  import Simulation
  import Receives

  /** The state after a stale free with nothing else waiting, and its abstract image: they differ in the slot alone. */
  predicate Parted(s: State, b: Book, k: nat, o: nat) {
    && StateOk(s) && s.halt == No && b.halt == No && s.phase == Settled && b.phase == Settled
    && |s.cq| == |b.cq| == 1 && s.log == b.log && b.buffers == Exposed(s.ring) > 0
    && k < |s.kernel| == |b.kernel| && s.kernel[k].op == b.kernel[k].op == OpRecvMsgMultishot
    && s.kernel[k].id < |s.pool.slots| && s.pool.slots[s.kernel[k].id] == None
    && b.kernel[k].ticket == o < |b.requests| && b.requests[o].kind == Recv && !b.requests[o].stream
  }

  /** The free of an id still armed as operation `k` parts the machines. */
  lemma StaleFreeParts(s: State, b: Book, e: Event, k: nat)
    requires Simulation.Sim(s, b) && Inv(s) && Buffers.Partitioned(s) && Enabled(s, e) && StaleFree(s, e)
    requires |s.cq| == 1 && k < |s.kernel| && s.kernel[k].id == s.cq[0].id
    ensures Possible(b, e) && Parted(Step(s, e), Next(b, e), k, s.phase.obj)
  {
    Simulation.EnabledIffPossible(s, b, e);
    OnlyDatagramsGoStale(s, e);
    FreeOk(s.pool, s.cq[0].id);
    assert s.kernel[k] in Entries(s) && EntryOk(s.pool, s.kernel[k]);
    assert Buffers.Held(s) == multiset{};
    Buffers.OwnedOnce(s, 0);
  }

  function Shows(k: nat, data: seq<Byte>): seq<Event> {
    [PollAdvances, KernelPosts(k, |data|, false, data), PollBegins]
  }

  /** A datagram waits for a slot that is empty, and in the abstract for a ticket that is not. */
  predicate Missed(s: State, b: Book, o: nat, data: seq<Byte>) {
    && StateOk(s) && s.halt == No && b.halt == No && s.phase == Idle && b.phase == Idle && s.log == b.log
    && |s.cq| == 1 && s.cq[0].id < |s.pool.slots| && s.pool.slots[s.cq[0].id] == None
    && b.cq == [Completion(o, |data|, data)]
    && o < |b.requests| && b.requests[o].kind == Recv && !b.requests[o].stream
  }

  /** Advance, and let the kernel end operation `k` with a datagram. */
  lemma PostParted(s: State, b: Book, k: nat, o: nat, data: seq<Byte>)
    requires Parted(s, b, k, o) && |data| <= BUFFER_SIZE
    ensures Enabled(s, PollAdvances) && Possible(b, PollAdvances)
    ensures var s1, b1 := Step(s, PollAdvances), Next(b, PollAdvances);
            var e := KernelPosts(k, |data|, false, data);
      && Enabled(s1, e) && Possible(b1, e)
      && Missed(Step(s1, e), Next(b1, e), o, data) && Step(s1, e).log == s.log
  {
  }

  /** The poll that follows runs a callback in one machine only. */
  lemma PollMissed(s: State, b: Book, o: nat, data: seq<Byte>)
    requires Missed(s, b, o, data) && Judge(data) == Deliver
    ensures Enabled(s, PollBegins) && Possible(b, PollBegins)
    ensures Step(s, PollBegins).log == s.log
    ensures Next(b, PollBegins).log == b.log + [Call(o, RecvFn, b.requests[o].fn, |data|, Payload(data))]
  {
    Receives.JudgedByBytes(data);
  }

  lemma BothGoOn(s: State, b: Book, es: seq<Event>, e: Event)
    requires Legal(s, es) && PossibleRun(b, es) && Enabled(Run(s, es), e) && Possible(Play(b, es), e)
    ensures Legal(s, es + [e]) && PossibleRun(b, es + [e])
    ensures Run(s, es + [e]) == Step(Run(s, es), e) && Play(b, es + [e]) == Next(Play(b, es), e)
  {
    assert Front(es + [e]) == es;
  }

  /**
   * Take any run whose last event is its first stale free, of an operation the kernel still holds,
   * with nothing else waiting. Three more events, which both machines allow, a datagram that the
   * handler would deliver and its poll, and the machines have made different calls.
   */
  lemma StaleFreeShows(cap: nat, mem: Memory, es: seq<Event>, k: nat, data: seq<Byte>)
    requires MemoryOk(mem) && es != [] && Legal(Init(cap, mem), es) && Disciplined(Init(cap, mem), Front(es))
    requires var s := Run(Init(cap, mem), Front(es));
      StaleFree(s, Last(es)) && |s.cq| == 1 && k < |s.kernel| && s.kernel[k].id == s.cq[0].id
    requires |data| <= BUFFER_SIZE && Judge(data) == Deliver
    ensures var whole := es + Shows(k, data);
      && Legal(Init(cap, mem), whole) && PossibleRun(Open(cap), whole)
      && Run(Init(cap, mem), whole).log == Run(Init(cap, mem), es).log
      && |Play(Open(cap), whole).log| == |Run(Init(cap, mem), whole).log| + 1
  {
    var s0, b0 := Init(cap, mem), Open(cap);
    InitInv(cap, mem);
    Buffers.InitPartition(cap, mem);
    Simulation.InitSim(cap, mem);
    Simulation.RunSim(s0, b0, Front(es));
    RunKeepsInv(s0, Front(es));
    Buffers.PartitionKept(s0, Front(es));
    var o := Run(s0, Front(es)).phase.obj;
    StaleFreeParts(Run(s0, Front(es)), Play(b0, Front(es)), Last(es), k);
    ThreeMore(s0, b0, es, k, o, data);
  }

  lemma TwoMore(s0: State, b0: Book, es: seq<Event>, k: nat, o: nat, data: seq<Byte>)
    requires Legal(s0, es) && PossibleRun(b0, es) && Parted(Run(s0, es), Play(b0, es), k, o) && |data| <= BUFFER_SIZE
    ensures var whole := es + [PollAdvances] + [KernelPosts(k, |data|, false, data)];
      && Legal(s0, whole) && PossibleRun(b0, whole)
      && Missed(Run(s0, whole), Play(b0, whole), o, data) && Run(s0, whole).log == Run(s0, es).log
  {
    PostParted(Run(s0, es), Play(b0, es), k, o, data);
    BothGoOn(s0, b0, es, PollAdvances);
    BothGoOn(s0, b0, es + [PollAdvances], KernelPosts(k, |data|, false, data));
  }

  lemma ThreeMore(s0: State, b0: Book, es: seq<Event>, k: nat, o: nat, data: seq<Byte>)
    requires Legal(s0, es) && PossibleRun(b0, es) && Parted(Run(s0, es), Play(b0, es), k, o)
    requires |data| <= BUFFER_SIZE && Judge(data) == Deliver
    ensures var whole := es + Shows(k, data);
      && Legal(s0, whole) && PossibleRun(b0, whole)
      && Run(s0, whole).log == Run(s0, es).log
      && |Play(b0, whole).log| == |Run(s0, whole).log| + 1
  {
    var two := es + [PollAdvances] + [KernelPosts(k, |data|, false, data)];
    TwoMore(s0, b0, es, k, o, data);
    PollMissed(Run(s0, two), Play(b0, two), o, data);
    BothGoOn(s0, b0, two, PollBegins);
    assert es + Shows(k, data) == two + [PollBegins];
  }
}
